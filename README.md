# IBC channel map of configured Cosmos chains

`utils/get_ibc_channels.py` asks the REST API (LCD) of each configured Cosmos
chain for its IBC channels. It resolves each transfer channel to the chain on
the other end. It then builds a nested map:

    local symbol -> counterparty key -> {"source channel", "destiation channel", "state"}

The counterparty key is the counterparty's configured symbol, or else its raw
chain id, or else `UNKNOWN`. When several channels lead to the same
counterparty, one entry is kept: an OPEN channel is preferred, and then the
smaller local channel number.

The model is a set of Dafny modules:

- `JsonModel` holds decoded JSON documents and the Python dictionary idioms
  the script uses on them (`get`, `x or {}`, truthiness).
- `Lookups` holds the injected REST endpoints. Each HTTP GET becomes a
  function that returns a document or fails with a message.
- `Urls` and `Strings` model URL joining and the string helpers.
- `Normalize` models `parse_channel_number`, `normalize_state` and
  `extract_chain_id_from_client_state`.
- `Pagination` models `paginate_channels`: a loop that follows the
  `pagination.next_key` cursor.
- `Channels` models `map_channels`: a loop over the listed channels, with the
  per-channel lookups and the error stubs.
- `Identity` models `get_local_chain_id` and `build_chain_id_symbol_map`.
- `Aggregate` models `aggregate_all` and its `should_replace` rule.
- `Conflict` holds what can be proved about that rule: an OPEN entry is kept,
  and the best candidate wins whatever the arrival order, provided every
  candidate has its own source number. When source numbers are missing, the
  last write wins.
- `Table` models `format_table`.

The loops of the source are methods, each proved equal to a specification
function of its inputs. The methods are `PaginateChannels`, `MapChannels`,
`BuildChainIdSymbolMap`, `AggregateAll` with its row loop `AddRows`, and
`FormatTable` with its column-width and line loops. Pagination is modelled
against a server described by the injected `listChannels` lookup. The loop
terminates under an assumption passed in as a ghost `rank` on cursors: every
cursor the server hands out has a lower rank than the one that asked for it.

## Model

| member | source | states |
|---|---|---|
| Strings.RStripSlash | utils/get_ibc_channels.py:59 | the result is a prefix of the input, does not end with `/`, and only slashes were removed |
| Strings.LStripSlash | utils/get_ibc_channels.py:60 | the result is a suffix of the input, does not start with `/`, and only slashes were removed |
| Strings.DecimalValue | utils/get_ibc_channels.py:285-286 | `int()` of a digit string: a number exactly when the string is non-empty and all digits (its value is pinned by `DecimalRoundTrip` and `DecimalLeadingZeros`) |
| Strings.DecimalRoundTrip | utils/get_ibc_channels.py:285-286 | reading back the decimal spelling of any natural number gives that number |
| Strings.DecimalLeadingZeros | utils/get_ibc_channels.py:285-286 | leading zeros do not change the value of a digit string |
| Strings.PaddedDecimalValue | utils/get_ibc_channels.py:285-286 | any number of zeros followed by the decimal text of n reads as n |
| Strings.DigitsDecompose | utils/get_ibc_channels.py:285-286 | every non-empty digit string is some number of zeros followed by the decimal text of some n, so with `PaddedDecimalValue` its value is pinned |
| Strings.CanonicalDigits | utils/get_ibc_channels.py:285-286 | digit text without a leading zero is exactly the decimal text of its value |
| Strings.Join | utils/get_ibc_channels.py:270-275 | `sep.join`: no parts give the empty string, one part gives itself (more parts are covered by `JoinPlacesParts` and `JoinEnds`) |
| Strings.JoinEnds | utils/get_ibc_channels.py:270-275 | the joined text ends right after the last part: nothing follows it |
| Strings.JoinPlacesParts | utils/get_ibc_channels.py:270-275 | every part appears unchanged at its offset, after all earlier parts each followed by the separator, and every part but the last is followed by the separator |
| Strings.LJust | utils/get_ibc_channels.py:270 | `ljust`: the string is kept as a prefix and padded with spaces up to the width, never truncated |
| Urls.QueryString | utils/get_ibc_channels.py:62-63 | an empty query string exactly when there are no parameters |
| Urls.UrlJoin | utils/get_ibc_channels.py:58-64 | the URL starts with stripped base, `/`, stripped path; it is exactly that when the query is empty, and otherwise that followed by `?` and the encoded query |
| Urls.JoinPointHasOneSlash | utils/get_ibc_channels.py:59-61 | there is exactly one slash where base and path meet |
| Urls.UrlJoinIgnoresExtraSlashes | utils/get_ibc_channels.py:58-64 | any number of extra trailing slashes on the base or leading slashes on the path gives the same URL |
| Normalize.ParseChannelNumber | utils/get_ibc_channels.py:278-288 | falsy input gives no number; a non-zero integer is itself; `channel-N` and bare `N` give a number exactly when N is a digit string; lists and objects give none |
| Normalize.ParseChannelNumberRoundTrip | utils/get_ibc_channels.py:278-288 | `channel-` followed by the decimal spelling of n parses to n, and so does the integer n |
| Normalize.ParseBareNumber | utils/get_ibc_channels.py:286 | the bare decimal spelling of n parses to n |
| Normalize.ParsePaddedChannelNumber | utils/get_ibc_channels.py:284-285 | zero-padded `channel-0…0N` parses to N |
| Normalize.NormalizeState | utils/get_ibc_channels.py:291-297 | absent or empty gives none; a `STATE_` prefix is removed once; any other state is unchanged |
| Normalize.NormalizeStateNotIdempotent | utils/get_ibc_channels.py:295-296 | only one prefix is removed, so normalising twice can differ from normalising once |
| Normalize.ExtractChainId | utils/get_ibc_channels.py:102-117 | fails exactly when the response or its client state is not an object; a falsy or missing client state gives none; a truthy direct `chain_id` wins; else the packed `value.chain_id`; else none |
| Normalize.ExtractChainIdBothShapes | utils/get_ibc_channels.py:104-106 | the direct and the packed client-state shapes yield the same chain id |
| Pagination.ParsePage | utils/get_ibc_channels.py:79-85 | a page is read exactly when it is an object whose `channels` is missing or a list, whose `pagination` is an object or falsy, and whose `next_key` is falsy or a string; a missing `channels` is `[]`; the cursor is absent exactly when `next_key` is falsy, and otherwise it is that non-empty string |
| Pagination.PaginateChannels | utils/get_ibc_channels.py:67-87 | the loop returns the concatenation specified by `Fetched`, having sent exactly the request chain `Requests` |
| Pagination.FetchPage | utils/get_ibc_channels.py:77-78 | one request: the list-channels answer for the query, parsed by `ParsePage` |
| Pagination.RequestChain | utils/get_ibc_channels.py:73-86 | the first request carries the given cursor, and every request carries the limit; each later request carries the non-empty cursor of the page before; only the last page fails or ends the chain |
| Pagination.FetchedIsConcatenation | utils/get_ibc_channels.py:79-80 | the result succeeds exactly when the last request does, and is then every page's channels in request order; otherwise it is that request's error |
| Pagination.FetchStep | utils/get_ibc_channels.py:73-86 | one iteration: a failure ends with that error, a page without cursor ends with its channels, a page with one prepends its channels and moves to a cursor of lower rank |
| Channels.AsString | utils/get_ibc_channels.py:220-221 | a falsy value reads as none, a non-empty string as itself; it fails exactly on a truthy non-string |
| Channels.FirstHop | utils/get_ibc_channels.py:204 | `hops[0]` is the first item of a list or the first character of a string; other values make it raise |
| Channels.Selected | utils/get_ibc_channels.py:184-187 | a channel is let through exactly when it has the port, and the state, of each non-empty filter; empty filters let every channel through |
| Channels.ChannelDetail | utils/get_ibc_channels.py:191-197 | fails with the lookup's error; otherwise fails exactly when the answer is not an object, or its `channel` or that one's `counterparty` is truthy but not an object; returns `channel` and `counterparty`, each read as `{}` when falsy |
| Channels.Hops | utils/get_ibc_channels.py:200-201 | the hops are truthy exactly when `connection_hops` is, and are then that value |
| Channels.ClientOf | utils/get_ibc_channels.py:206-208 | fails with the lookup's error, or exactly when the answer or its `connection` is not an object; returns the connection's `client_id` |
| Channels.CounterpartyChainOf | utils/get_ibc_channels.py:210-211 | fails with the lookup's error, or exactly when the chain id cannot be extracted or is a truthy non-string; returns the extracted chain id as a label |
| Channels.Enrich | utils/get_ibc_channels.py:204-223 | resolves exactly when the first hop, its connection's client, that client's chain id and the listed state all succeed; the record copies the listed id, port and state, the counterparty's channel and port, the first hop as connection, that connection's `client_id` and that client's chain id |
| Channels.ProcessChannel | utils/get_ibc_channels.py:181-237 | a non-object entry fails the call; filtered-out channels and channels without hops give no record; a failing lookup gives the stub with id, port and error; otherwise the resolved record |
| Channels.WellFormedChannelResolves | utils/get_ibc_channels.py:189-223 | a selected channel whose detail, connection and client-state lookups answer in the documented shapes becomes a resolved record carrying its client's chain id |
| Channels.MapChannels | utils/get_ibc_channels.py:157-238 | the loop returns exactly `MapChannelsResult`: pagination's failure, or the records of the listed channels in order |
| Channels.ResolveRowsShape | utils/get_ibc_channels.py:179-237 | the call succeeds exactly when every listed entry is an object, and the records are then the per-channel outcomes that are present, in input order |
| Identity.Dig | utils/get_ibc_channels.py:137-149 | a non-object gives a raise; a falsy step reads as `{}`, so every later key reads as null; the last key is a plain `get` |
| Identity.DigAt | utils/get_ibc_channels.py:137-138 | a truthy leaf is reached through the `(d.get(k) or {})` chain exactly when the keys lead to it |
| Identity.IdAt | utils/get_ibc_channels.py:135-140 | an id is found exactly when the request succeeded and a non-empty string sits at the path |
| Identity.GetLocalChainId | utils/get_ibc_channels.py:126-154 | a found id is non-empty; node info's network wins when found; otherwise the latest block's chain id |
| Identity.LocalId | utils/get_ibc_channels.py:304-305 | an endpoint's id, asked of its base URL without trailing slashes, is non-empty when found |
| Identity.LocalIdIgnoresTrailingSlashes | utils/get_ibc_channels.py:304-305 | any number of trailing slashes on the configured base URL give the same id |
| Identity.BuildChainIdSymbolMap | utils/get_ibc_channels.py:300-308 | the loop returns exactly `IdentityMap` over the endpoints, in configuration order |
| Identity.IdentityMapKeys | utils/get_ibc_channels.py:305-307 | every key is non-empty and is the resolved id of some endpoint |
| Identity.IdentityMapLastWins | utils/get_ibc_channels.py:303-307 | every resolved id is a key, mapped to the symbol of the last endpoint that resolved to it |
| Aggregate.Entry | utils/get_ibc_channels.py:365-369 | a leaf has exactly the three keys `source channel`, `destiation channel`, `state`, holding the candidate's source number, destination number and state |
| Aggregate.EntryReadBack | utils/get_ibc_channels.py:342 | a stored entry is non-empty and reads back the source number and state it was written with |
| Aggregate.ExistingNumber | utils/get_ibc_channels.py:342-344 | a stored number is read back as itself, and a stored `None` as no number |
| Aggregate.ShouldReplace | utils/get_ibc_channels.py:331-349 | an empty slot is filled; OPEN beats non-OPEN in both directions; at equal OPEN-ness a stored entry without number gives way, otherwise only a strictly smaller source number wins |
| Aggregate.CounterpartyKey | utils/get_ibc_channels.py:358-359 | the mapped symbol, else the non-empty raw chain id, else `UNKNOWN` |
| Aggregate.StateLabel | utils/get_ibc_channels.py:363 | never empty: the normalised state, or `UNKNOWN` |
| Aggregate.Live | utils/get_ibc_channels.py:352-356 | an aggregated row is on port `transfer`; an errored stub never is; a resolved transfer row always is |
| Aggregate.KeyOf | utils/get_ibc_channels.py:358-359 | a stub's key is `UNKNOWN`; a resolved row's is the counterparty key of its chain id |
| Aggregate.CandidateOf | utils/get_ibc_channels.py:361-369 | the source is the parsed channel id; the state is never empty; a stub has no destination and state `UNKNOWN`; a resolved row has its parsed counterparty channel and its state label |
| Aggregate.Place | utils/get_ibc_channels.py:370-372 | only the proposal's own slot may change; an empty slot receives the candidate; a filled one keeps its entry or takes the candidate |
| Aggregate.AddRow | utils/get_ibc_channels.py:351-372 | skipped rows change nothing; only the row's own key can be added or changed |
| Aggregate.AddEndpoint | utils/get_ibc_channels.py:319-372 | a failed call records `__error__` with its message and keeps earlier slots; a success folds the rows into that symbol's map; other symbols are untouched |
| Aggregate.EndpointMap | utils/get_ibc_channels.py:323-328 | a fresh symbol's map is the error stub alone on failure, and the fold of its rows into `{}` on success |
| Aggregate.EndpointResult | utils/get_ibc_channels.py:317-372 | with distinct symbols, each endpoint's entry in the result is its own call's outcome on a fresh map |
| Aggregate.AddRows | utils/get_ibc_channels.py:351-372 | the loop returns exactly the fold of the rows into the symbol's map |
| Aggregate.AggregateAll | utils/get_ibc_channels.py:311-374 | the loop returns exactly `AggregateOver` the endpoints, keyed by the identity map that `BuildChainIdSymbolMap` builds |
| Conflict.BetterIsStrictTotal | utils/get_ibc_channels.py:336-349 | the reference order "OPEN first, then smaller source" is asymmetric, transitive and total on distinct source numbers |
| Conflict.ReplaceIsBetter | utils/get_ibc_channels.py:331-349 | when the stored entry and the candidate both have a source number, `should_replace` agrees exactly with the reference order |
| Conflict.FoldRowsIsFoldProposals | utils/get_ibc_channels.py:351-372 | folding rows is the same as folding the proposals they make |
| Conflict.StepWinner | utils/get_ibc_channels.py:370-372 | after one competing proposal the slot holds the better of candidate and incumbent |
| Conflict.SlotHoldsBest | utils/get_ibc_channels.py:351-372 | with distinct source numbers, after the fold a slot holds the best of its incumbent and its competing candidates, or stays empty when there are none |
| Conflict.FinalEntryIsBest | utils/get_ibc_channels.py:328-372 | from a fresh map, a slot is filled exactly when some live row competes for it, and then with the best competitor |
| Conflict.AggregateEntryIsBest | utils/get_ibc_channels.py:311-374 | with distinct symbols, a successful endpoint's slot in the whole result is filled exactly when one of its rows competes for it, and then with the best competitor |
| Conflict.BestIsUnique | utils/get_ibc_channels.py:340 | the best candidate of a distinguished set is unique |
| Conflict.SameProposalsSameFold | utils/get_ibc_channels.py:351-372 | proposal lists with the same elements fold to the same map when every slot's candidates are distinguished |
| Conflict.OrderIndependent | utils/get_ibc_channels.py:351-372 | any permutation of the rows gives the same map when every slot's competitors have distinct source numbers |
| Conflict.OpenStaysOpen | utils/get_ibc_channels.py:338-339 | once a slot holds an OPEN entry, later rows never replace it with a non-OPEN one |
| Conflict.LaterUnnumberedWins | utils/get_ibc_channels.py:345-346 | of two non-OPEN candidates without source number for one slot, the second always replaces the first |
| Conflict.NullSourcesLastWriteWins | utils/get_ibc_channels.py:345-346 | two rows whose channel ids do not parse fold to different maps in the two orders: arrival order matters without source numbers |
| Table.Cell | utils/get_ibc_channels.py:256-262 | a missing key gives `""`, a null value `None`, a string itself |
| Table.Cells | utils/get_ibc_channels.py:253-264 | one cell per column key, each the row's value for that key (`""` when missing, `None` when null) |
| Table.MaxLenIsMax | utils/get_ibc_channels.py:267 | the width is at least every element's length and equal to some element's length |
| Table.TableOf | utils/get_ibc_channels.py:252-264 | one cell row per input row, in order, each as wide as the headers |
| Table.Widths | utils/get_ibc_channels.py:267 | one width per header, each at least as wide as its header |
| Table.FormatRow | utils/get_ibc_channels.py:269-270 | a line is never narrower than the sum of the widths and separators, and exactly that wide when every cell fits (what sits where is `RowPlacesCells`) |
| Table.Padded | utils/get_ibc_channels.py:270 | one cell per value, each the value left-justified to its column's width |
| Table.RowPlacesCells | utils/get_ibc_channels.py:269-270 | when every cell fits, the line holds each cell left-justified to its width at its column's start (the widths and two-space separators of the columns before it), the cell's own text first, and two spaces after every column but the last |
| Table.HeaderInPlace | utils/get_ibc_channels.py:267-272 | the header line holds every header at the start of its column |
| Table.Dashes | utils/get_ibc_channels.py:272 | one run of `-` per column, exactly as wide as the column |
| Table.DashesInPlace | utils/get_ibc_channels.py:267-272 | the dashes line holds, at the start of each column, a run of dashes as wide as that column |
| Table.CellInPlace | utils/get_ibc_channels.py:267-274 | the line of each row holds every cell of that row at the start of its column |
| Table.TableFits | utils/get_ibc_channels.py:267 | the headers and every row's cells fit the computed widths |
| Table.FormatTable | utils/get_ibc_channels.py:241-275 | the text is the header line, the dashes line and one line per row, joined by newlines, with the widths of `Widths` |
| Table.CellTable | utils/get_ibc_channels.py:252-264 | the loop builds exactly `TableOf` the rows: one cell row per input row, in order |
| Table.ColumnWidths | utils/get_ibc_channels.py:267 | the loop returns exactly `Widths`: one width per header, in header order |
| Table.Render | utils/get_ibc_channels.py:267-275 | the text is the lines of `LinesOf` for these headers and cells, joined by newlines |
| Table.ColumnWidth | utils/get_ibc_channels.py:267 | the loop returns the maximum length over the header and the column's cells |
| Table.FormatLines | utils/get_ibc_channels.py:272-274 | the lines are the header line, the dashes line, then each row's line in order |
| Table.ColumnIsTight | utils/get_ibc_channels.py:267 | a column is as wide as its widest cell or header, and no wider |
| Table.AlignedLines | utils/get_ibc_channels.py:267-275 | every line, header and dashes included, has the same length, so the columns line up |

## Left out

- HTTP and JSON decoding (`http_get_json`, the `urllib` request, the timeout, the decode error) are not modelled. Each GET is an injected lookup in `Lookups.Network` that returns a document or a failure message. `get_channel`, `get_connection` and `get_client_state` are those lookups, applied to the listed identifiers.
- `TENDERMINT_API_URLS` is a parameter: a sequence of `Endpoint`s in configuration order.
- Logging and `time.sleep` are left out. `delay_ms` only sleeps.
- `main`, the JSON dump and the file output are left out: they are I/O.
- Exception messages are the model's own strings. Python's `str(e)` texts are not reproduced.
- Percent-encoding in `urlencode` is not modelled: parameters are written `key=value` and joined with `&`.
- Numbers are integers: JSON floats are not modelled.
- `int()` is modelled on digit strings only. Signs, whitespace and underscores are not accepted, though Python's `int()` accepts them.
- Python's `True` counts as the integer 1 in `parse_channel_number`, and in `Aggregate.ExistingNumber` a stored boolean source number reads as `int(True) == 1` or `int(False) == 0`. No other bool arithmetic is modelled.
- JSON objects are maps, so key order is lost. No result of the core depends on it.
- The counterparty chain id and the listed `state` are read as labels: a falsy value is none, a non-empty string is itself. A truthy non-string value there makes the model's record a stub. In the source, a truthy non-string state makes `normalize_state` raise and ends the whole run; a truthy non-string chain id becomes the key itself, or ends the run if it is a list or an object. A falsy list or object chain id also ends the run in the source, but reads as `UNKNOWN` in the model.
- A node `network` or block `chain_id` is used only when it is a non-empty string. A truthy non-string `network` makes the model fall back to the latest block, where the source returns that value. A truthy non-string block `chain_id` gives no identity in the model.
- A truthy `next_key` that is not a string fails the page in the model. The source would send it as the next cursor.
- A `channels` value that is not a list fails the page. The source's `extend` would add a dict's keys or a string's characters.
- `Table.FormatTable` takes cells as optional strings. `str()` of other JSON values is not modelled.
- No concurrency: the source is sequential.
- Conflict.OrderIndependent: order independence is proved only when every competing candidate has its own source number. `Conflict.NullSourcesLastWriteWins` shows it fails otherwise.
- Pagination.PagesTerminate: the termination assumption asks the rank to decrease along `next_key` from every cursor, not only from those reachable from the first request. It therefore excludes servers with a cursor cycle that is never handed out, on which the source would still terminate. It also excludes, by construction, every server on which the source's unguarded `while True` never ends, for example one whose `next_key` hands back the same cursor again: the model does not describe that non-terminating behaviour.
- Conflict.AggregateEntryIsBest and Aggregate.EndpointResult: these assume distinct endpoint symbols, as the source's dictionary guarantees. `AggregateAll` itself accepts repeated symbols.
