# news-room message ingestion, in Dafny

A model of the dashboard server's Slack ingestion and of the small decision and formatting
helpers around it.

The server (server/slackBot.js) keeps two process-wide lists. `extractedData` is a rolling
buffer of messages, kept in the order they were added: the most recently loaded batch or
live message first, each batch in reversed fetch order, not sorted by message time. `botChannels` is the channel registry. Two writers change
the buffer:

- the live `message` event handler prepends one message, with the numeric id `Date.now()`,
  and keeps 20 entries;
- four history loaders (happenings, hackathons, ship, announcements) perform one
  replace-by-tag upsert. Each fetches the newest messages of its channel through a
  rate-limit-retrying fetch, tags them `"<tag>-<ts>"`, removes the buffer entries with that
  prefix, puts the reversed batch in front and keeps 50 entries. It then registers its
  channel if no registry entry has that id.

The HTTP layer (server/app.js) serves the buffer as it is. It gates an admin endpoint on a
shared secret and proxies two upstream APIs. The browser client (client/script.js) filters,
sorts and formats what it receives.

Modules:

- `Wrappers`, `Text`, `Seqs`: Option/Result, and the JavaScript built-ins the code relies on
  (`startsWith`, number printing, `split`, `replace`, `substring`, `join`,
  `slice`, `reverse`, `sort`), each with the lemmas the rest needs.
- `RollingBuffer`: messages, the prefix filter (which throws on a numeric id), the upsert and
  the live prepend, as functions on values.
- `ChannelRegistry`: channel records, the member-channel mapping of `getBotChannels`, and
  seeding.
- `Fetcher`: `getChannelHistory` as a specification over a sequence of API-call outcomes.
- `SlackBot`: the class `Ingestion`. Its fields are `extractedData` and `botChannels`. Its
  methods are the live handler, the retry loop, `getBotChannels`, one generic loader and the
  refresh cycle.
- `App`: the request handlers of server/app.js, as functions.
- `Client`: the pure helpers of client/script.js.
- `Dashboard`: the client's globals as the class `Dashboard`, with the functions that rewrite
  them.

Behaviour worth knowing, as the code has it:

- An empty fetch returns before anything is touched. The old entries of that channel stay.
- `getBotChannels` replaces the registry wholesale. It does not merge.
- The live handler caps the buffer at 20. Batch loads cap it at 50.
- The server keeps only these two lists. Nothing records loading progress.
- The admin endpoint never returns data.

The latent fault of the live id is modelled as written. A live entry has a numeric id, and
`msg.id.startsWith` throws on it. So once such an entry is in the buffer, every later batch
load is caught at its prefix filter and changes neither list
(`RollingBuffer.LiveEntryBlocksUpsert`, `SlackBot.LiveEntryBlocksLoads`). In the browser the
same numeric id makes `message.id.split` throw, so the whole list fails to render
(`Client.RenderAll`).

## Model

| member | source | states |
|---|---|---|
| `Text.Prefix` | client/script.js:307 | `substring(0, n)` is a prefix of the text of length min(n, length) |
| `Text.Join` | client/script.js:77 | one part joins to itself; with more, the text starts with the first part and the separator |
| `Text.RemoveFirst` | client/script.js:272 | without the character the text is unchanged; with it, exactly one character goes |
| `Text.SplitAtFirst` | client/script.js:272 | up to its first separator a string splits off one piece, and the rest splits on its own |
| `Seqs.Take` | server/slackBot.js:138-140 | `slice(0, n)` keeps the first min(n, length) entries in order |
| `Text.IndexOf` | client/script.js:306 | how the model finds the first piece of `split('<br><br>')`: the position found is an occurrence and no earlier one exists; None means there is no occurrence |
| `Text.Split` | client/script.js:272 | `split` with a one-character separator gives at least one piece, and no piece holds the separator |
| `Text.JoinSplit` | client/script.js:272 | joining the pieces of `split` with the separator gives back the original string |
| `Text.RemoveFirstAt` | client/script.js:272 | `replace('.', '')` removes exactly the first `.` and keeps everything else in place |
| `Text.ParseIntToString` | client/script.js:153 | the number printed into a template literal can be read back unchanged |
| `Seqs.Reverse` | server/slackBot.js:135 | `reverse()` keeps the length; `Seqs.ReverseAt` gives the element at each position |
| `Seqs.ReverseAt` | server/slackBot.js:135 | position k of the reversed batch holds element n-1-k of the fetched batch |
| `Seqs.SortBy` | client/script.js:236 | `sort` with a numeric comparator yields a permutation of its input, ordered by key |
| `RollingBuffer.Untagged` | server/slackBot.js:132 | an entry survives the filter iff it was in the buffer and lacks the prefix |
| `RollingBuffer.UntaggedAppend` | server/slackBot.js:132 | the filter keeps the surviving entries in their original relative order |
| `RollingBuffer.StripTag` | server/slackBot.js:132 | the filter throws iff some entry has a numeric id; otherwise it keeps exactly the unprefixed entries |
| `RollingBuffer.Upsert` | server/slackBot.js:131-140 | the upsert fails iff the buffer holds a numeric id; on success it leaves at most 50 entries |
| `RollingBuffer.OnlyFreshTagged` | server/slackBot.js:132-135 | after an upsert, every entry carrying the prefix comes from the fresh batch |
| `RollingBuffer.TruncatesTail` | server/slackBot.js:135-140 | the result is the first min(50, n) entries of reverse(batch) ++ unprefixed old entries: tail dropped, head kept |
| `RollingBuffer.FreshInFront` | server/slackBot.js:135 | a batch of at most 50 lies at the front of the result in reversed fetch order, ahead of every earlier entry |
| `RollingBuffer.UpsertIdempotent` | server/slackBot.js:131-140 | repeating the upsert with the same tagged batch of at most 50 changes nothing |
| `RollingBuffer.LiveMessage` | server/slackBot.js:28-34 | the live entry carries the numeric id `Date.now()` and the event's channel, text, user and ts |
| `RollingBuffer.LivePrepend` | server/slackBot.js:37-42 | the new message is at index 0, at most 20 remain, and the old entries follow in order |
| `RollingBuffer.LiveEntryBlocksUpsert` | server/slackBot.js:132 | after a live message is prepended, every upsert fails at the prefix test |
| `RollingBuffer.NumericIdSurvivesPrepend` | server/slackBot.js:37-42 | a numeric-id entry among the first 19 is still in the buffer after the next live message, whatever the buffer's size |
| `ChannelRegistry.ToChannel` | server/slackBot.js:89-96 | each stored channel is public; `num_members` defaults to 0 and `purpose` to '' |
| `ChannelRegistry.Members` | server/slackBot.js:88 | a channel is kept iff it is listed and `is_member` |
| `ChannelRegistry.MembersAppend` | server/slackBot.js:88 | the filter works piecewise over a split listing, so it keeps the listing order |
| `ChannelRegistry.MemberChannels` | server/slackBot.js:88-96 | the stored list maps the member channels one-for-one, position by position (order by `MembersAppend`) |
| `ChannelRegistry.MemberChannelsExact` | server/slackBot.js:88-96 | the stored list holds exactly the mapped member channels, all public |
| `ChannelRegistry.Seed` | server/slackBot.js:143-153 | seeding prepends the channel only when no entry has its id; afterwards the id is present and the list grew by at most one |
| `ChannelRegistry.SeedIdempotent` | server/slackBot.js:143-153 | seeding a second record with the same id, e.g. a later timestamp, leaves the registry as the first seeding left it |
| `Fetcher.RetryDelay` | server/slackBot.js:66 | the sleep is the advised `retryAfter`, or 60 s when it is absent or 0 |
| `Fetcher.RetriedStep` | server/slackBot.js:65-69 | a rate-limited call followed by properly delayed retries is itself a properly delayed run of retries |
| `Fetcher.Attempt` | server/slackBot.js:53-75 | the recursion makes between 1 and left+1 calls, with one sleep between each two |
| `Fetcher.FetchHistory` | server/slackBot.js:53-75 | without a Slack app no call and no messages; otherwise between 1 and retries+1 calls |
| `Fetcher.AttemptShape` | server/slackBot.js:53-75 | at most retries+1 calls; every call but the last was rate limited and slept its delay; a rate-limited last call means the budget was spent; messages come from a delivering last call |
| `Fetcher.CallBound` | server/slackBot.js:53-75 | the fetch makes at most retries+1 calls with one sleep between each two, and no call without a Slack app |
| `Fetcher.WithinLimit` | server/slackBot.js:57-62 | when every answer respects `limit`, so does the fetch result |
| `Fetcher.TwoRateLimitsThenSuccess` | server/slackBot.js:65-69 | two rate limits then a delivery return the delivery after sleeping 60 s and 5 s |
| `SlackBot.LoadStep` | server/slackBot.js:112-153 | an empty fetch or a numeric id in the buffer changes nothing; otherwise at most 50 entries remain and the source's channel is registered, adding at most one |
| `SlackBot.Source.SeedChannel` | server/slackBot.js:145-152 | the record a loader registers: its channel id, its tag as name, public, 0 members, its fixed purpose, the load time |
| `SlackBot.TagBatch` | server/slackBot.js:123-129 | every tagged id is `"<tag>-<ts>"` with the source's channel, user and text |
| `SlackBot.LoadReplacesSource` | server/slackBot.js:131-153 | after a successful load, every prefixed entry comes from the fresh batch, every fresh entry is kept when there are at most 50, and the channel is registered |
| `SlackBot.LoadBounded` | server/slackBot.js:137-140 | a load leaves at most 50 entries and adds at most one channel |
| `SlackBot.LoadIdempotent` | server/slackBot.js:131-153 | loading a source twice from unchanged history equals loading it once, for buffer and registry, whatever time the second load stamps |
| `SlackBot.PrefixesDisjoint` | server/slackBot.js:132 | no id carries the prefixes of two different sources |
| `SlackBot.LoadKeepsOtherSources` | server/slackBot.js:132 | a load of one source never filters out another source's entries |
| `SlackBot.LiveEntryBlocksLoads` | server/slackBot.js:155-157 | after a live message, every load leaves buffer and registry unchanged |
| `SlackBot.CycleTrace` | server/slackBot.js:333-346 | a cycle starts with the initial delay (2 s or 2 h), includes the happenings load and ends with the announcements load |
| `SlackBot.CycleOrder` | server/slackBot.js:333-346 | in a cycle, happenings completes, then the 15 s or 30 s gap, and only then the announcements load runs |
| `SlackBot.Ingestion.GetExtractedData` | server/slackBot.js:360 | the export hands out the buffer itself, unchanged and unsorted |
| `SlackBot.Ingestion.constructor` | server/slackBot.js:9-10 | both lists start empty |
| `SlackBot.Ingestion.OnMessage` | server/slackBot.js:24-49 | only a channel message with no bot id and non-empty text is prepended (cap 20); the registry is untouched |
| `SlackBot.Ingestion.GetChannelHistory` | server/slackBot.js:53-75 | the retry loop returns exactly what the recursive fetch specification gives |
| `SlackBot.Ingestion.GetBotChannels` | server/slackBot.js:78-103 | success stores and returns the member channels; failure returns the cached list; no app returns [] |
| `SlackBot.Ingestion.LoadHistory` | server/slackBot.js:106-321 | the generic loader: new state = load step of the fetch result; an empty fetch or a numeric id leaves both lists unchanged |
| `SlackBot.Ingestion.RunCycle` | server/slackBot.js:326-346 | a cycle loads happenings then announcements in order, with the initial delay and the gap, each load with its own clock read, and records the trace |
| `App.EventsProxy` | server/app.js:17-42 | 200 with the parsed body unchanged iff the answer is 2xx and parses; otherwise 500, with the status in the message for a non-2xx answer |
| `App.HackathonsProxy` | server/app.js:44-59 | 200 with the JSON unchanged iff the answer is 2xx and parses; otherwise 500 |
| `App.UpstreamStatusInError` | server/app.js:21-24 | the upstream status can be read back from either proxy's error text |
| `App.SlackData` | server/app.js:62-65 | the public endpoint serves the buffer itself, same entries in the same order, with status 200 |
| `App.SlackChannels` | server/app.js:84-87 | the channel endpoint returns what `getBotChannels` stores: the member channels after a successful listing, the cached list after a failed one, [] without an app |
| `App.AdminToken` | server/app.js:69 | the Authorization header wins unless absent or empty; then the `admin_token` query parameter is used |
| `App.AdminGate` | server/app.js:68-81 | no configured token gives 503 for any input; otherwise only the exact token passes, and anything else, missing included, gives 401 |
| `App.AdminNeverServesData` | server/app.js:71-81 | every reply from the admin endpoint is a 401 or 503 error; passing the gate reaches an undefined export |
| `Client.GetMessageType` | client/script.js:137-143 | each of the four monitored ids maps to its type; any other channel maps to default |
| `Client.TypeMatchesServerSource` | client/script.js:137-143 | the client's type name of each loader's channel equals the loader's tag |
| `Client.ChannelIcon` | client/script.js:281-289 | one icon per type; the speech balloon is used exactly for the default type |
| `Client.ChannelDisplayName` | client/script.js:163-193 | the loaded name comes first, then the built-in table, then the id itself |
| `Client.DisplayChannel` | client/script.js:246-247 | the badge always starts with `#`; a name that already starts with `#` is used as it is, otherwise one `#` is added |
| `Client.Age` | client/script.js:146-159 | minutes below an hour, hours below a day, days otherwise, counting whole elapsed units; an invalid date gives NaN |
| `Client.Render` | client/script.js:151-159 | an age renders as its count followed by the unit's suffix; NaN renders as `NaNd ago` |
| `Client.FormatTimestamp` | client/script.js:146-160 | an invalid date gives `NaNd ago`; otherwise the text ends in the suffix of the unit `Age` chooses |
| `Client.FormatTimestampRoundTrip` | client/script.js:146-160 | the text shown determines the elapsed count and unit |
| `Client.RenderRoundTrip` | client/script.js:151-159 | count and unit can be read back from the text of an age |
| `Client.StartKey` | client/script.js:59-60 | the sort key is the start, or the 9999-12-31 instant for an undated hackathon |
| `Client.SortHackathons` | client/script.js:58-62 | hackathons are reordered by start, with 9999-12-31 for undated ones |
| `Client.UndatedLast` | client/script.js:58-62 | hackathons without a start come after every dated one |
| `Client.Present` | client/script.js:71-74 | keeps exactly the non-empty address parts |
| `Client.PresentAppend` | client/script.js:71-74 | dropping empty parts works piecewise, so the kept parts stay in order |
| `Client.HackathonLocation` | client/script.js:65-79 | virtual gives 'Online'; otherwise the present city, state and country are joined with ", "; with none present the result is 'TBD' |
| `Client.IsLongMessage` | client/script.js:259 | a message is long iff cutting it at 500 characters loses text |
| `Client.LeadSection` | client/script.js:306-307 | the preview section is a prefix of the text ending exactly at the first `<br><br>` (no break starts earlier); no break gives the whole text; an empty first section falls back to 300 characters |
| `Client.RenderContent` | client/script.js:292-361 | short messages are shown whole; long ones get a preview of 200 (ship) or 300 characters, or the lead section with `...` only when more sections follow |
| `Client.PermalinkSuffix` | client/script.js:272 | the suffix throws iff the id is numeric |
| `Client.PermalinkSuffixUndashed` | client/script.js:272 | an id without `-` gives the suffix "undefined" |
| `Client.PermalinkSuffixDashed` | client/script.js:272 | for an id `a-b` with no `-` in `a`, the suffix is the first `-` piece of `b` with its first `.` removed |
| `Client.Permalink` | client/script.js:272 | the link points into the message's channel archive, and throws exactly for numeric ids |
| `Client.PermalinkOfLoadedMessage` | client/script.js:272 | for a loader-built id `<tag>-secs.micros`, the link suffix is secs followed by micros |
| `Client.ForChannel` | client/script.js:232 | keeps exactly the messages of the selected channel, each as often as in the input |
| `Client.ForChannelAppend` | client/script.js:232 | the channel filter splits over concatenation, so matches keep their input order |
| `Client.ForChannelOne` | client/script.js:232 | a single message is kept exactly when it is of the channel |
| `Client.NewestFirst` | client/script.js:236 | a permutation ordered by time, most recent first |
| `Client.ShownIsChannel` | client/script.js:230-236 | with a channel selected, the shown list is exactly that channel's messages, each as often as in the data |
| `Client.ExtraButtons` | client/script.js:431-442 | the extra buttons are exactly the listed channels that are neither fixed nor private |
| `Client.ExtraButtonsAppend` | client/script.js:431-442 | the button filter splits over concatenation, so the extra buttons follow the listing order |
| `Client.ExtraButtonsOne` | client/script.js:431-442 | a single channel gets a button exactly when it is neither fixed nor private |
| `Client.ExtraIds` | client/script.js:431-442 | the extra buttons' ids are exactly those of the listed channels that are neither fixed nor private |
| `Client.FilterButtons` | client/script.js:402-442 | the buttons are 'all', the four fixed channels, then the ids of the extra buttons in listing order |
| `Client.RenderMessage` | client/script.js:256-278 | the type follows the channel; expandable iff the raw text exceeds 500 characters; throws exactly for a numeric id |
| `Client.RenderAll` | client/script.js:245-252 | the list renders iff no message has a numeric id |
| `Dashboard.Shown` | client/script.js:230-236 | the displayed list holds exactly the data's messages, of the selected channel unless 'all', most recent first |
| `Dashboard.ShownCounts` | client/script.js:230-236 | each displayed message appears exactly as often as in the data |
| `Dashboard.BuildChannelNames` | client/script.js:387-397 | the loop builds exactly the map `NamesAfter` of the listing: the four fixed names, then each channel's name in listing order |
| `Dashboard.NamesDomainAt` | client/script.js:387-397 | an id has a name iff it is one of the four fixed ids or some listed channel carries it |
| `Dashboard.NamesLastWins` | client/script.js:395-397 | the last listing of an id decides its name |
| `Dashboard.NamesKeepSeeds` | client/script.js:390-393 | a fixed id that no listed channel carries keeps its built-in name |
| `Dashboard.NamesOfUniqueIds` | client/script.js:395-397 | a channel whose id is listed once is shown under its own name |
| `Dashboard.Dashboard.constructor` | client/script.js:98-100 | starts with 'all' selected, no data and no names |
| `Dashboard.Dashboard.LoadChannels` | client/script.js:381-468 | an answer rebuilds the names from scratch and the buttons; a failure keeps the names and shows the fallback buttons |
| `Dashboard.Dashboard.DisplayFilteredMessages` | client/script.js:227-253 | with 'all', the global array itself is sorted newest first; otherwise a filtered copy is sorted and the global is unchanged |
| `Dashboard.Dashboard.FilterByChannel` | client/script.js:470-481 | selecting a channel keeps names and buttons and hands its messages, newest first, to rendering; 'all' sorts the global array itself |
| `Dashboard.Dashboard.EnsureChannelNames` | client/script.js:214-216 | channels are loaded only when no name is known; then names and buttons are as `loadChannels` leaves them |
| `Dashboard.Dashboard.LoadSlackData` | client/script.js:195-225 | a failed request changes no state and shows the error; otherwise the data is stored (sorted under 'all'), names and buttons follow the nested `loadChannels` when none were known, and the error is shown iff a displayed message has a numeric id |

## Left out

- The Slack Bolt SDK, socket mode and the network calls are left out. Each call's answer is
  an abstract outcome, given as a parameter.
- Fetcher: a call beyond the given outcome sequence is treated as a non-rate-limit failure.
- Timers and real sleeping are left out. The refresh cycle records sleeps as trace steps.
- Interleaving of the live handler with a running loader is not modelled. Each handler runs
  as one atomic step.
- A failing `slackApp.start()` is not modelled.
- `Date` conversions are not modelled (`toISOString`, `toLocaleString`, `ts * 1000` in
  floating point). The server keeps the Slack `ts` as the timestamp. The client uses integer
  milliseconds, so an unparseable timestamp cannot reach its sort.
- `parseSlackMessage` is left out, because it is a chain of regular expressions.
  `Client.RenderMessage` takes it as the parameter `parse`.
- DOM work is left out: markup, `classList`, `toggleExpand`, skeleton loaders,
  `updateTimestamp`, and the event and hackathon list markup.
- Express wiring, CORS, static serving, and `fetch`/`JSON.parse` internals are left out.
- App.AdminGate: it ends at the call of the missing `slackBot.getAllData`. What Express then
  sends for the thrown TypeError is not modelled.
- Dashboard.Dashboard.DisplayFilteredMessages and Dashboard.Dashboard.FilterByChannel: they
  return the list handed to rendering. Whether rendering throws is stated by `Client.RenderAll`.
  `Dashboard.Dashboard.LoadSlackData` composes the two.
- Seqs.SortBy: stability is not stated, although the definition is stable. Stability means
  equal keys keep their input order.
- Client.RenderMessage: JavaScript `length` and `substring` count UTF-16 code units. The model
  counts characters, so text outside the Basic Multilingual Plane measures differently.
- Text.IntToString: JavaScript prints numbers of 1e21 and above in exponent notation. That
  form is not modelled.
- Client.Hackathon: `virtual` and the address fields are modelled as a boolean and strings.
  Other JSON types are not modelled.
- The hackathons and ship loaders are modelled as sources of `SlackBot.Ingestion.LoadHistory`,
  although nothing in the repository calls them.
