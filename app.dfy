/** server/app.js: the decisions of its request handlers. Each handler ends in exactly one
    reply; the upstream `fetch` is given as an abstract response. */
module App {
  import opened Wrappers
  import opened Text
  import opened RollingBuffer
  import opened ChannelRegistry
  import opened SlackBot

  /** A JSON reply: the value with status 200 (`res.json`), or `{ error }` with a status. */
  datatype Reply<J> = Json(value: J) | ErrorReply(code: nat, error: string) {
    function Status(): nat {
      if Json? then 200 else code
    }
  }

  /** An upstream `fetch`: it throws, or answers with a status and a body that can be read
      (and then parses or not) or cannot be read. */
  datatype Upstream<J> = Unreachable | Answered(status: nat, body: BodyRead<J>)
  datatype BodyRead<J> = Unreadable | Read(parsed: Option<J>)

  /** `response.ok` */
  predicate Ok2xx(status: nat) {
    200 <= status <= 299
  }

  const EventsErrorPrefix := "Events API error: "
  const HackathonsErrorPrefix := "Hackathons API error: "

  /** `GET /api/events-api` (server/app.js:17-42). */
  function EventsProxy<J>(up: Upstream<J>): (r: Reply<J>)
    ensures r.Json? <==> up.Answered? && Ok2xx(up.status) && up.body.Read? && up.body.parsed.Some?
    ensures r.Json? ==> r.value == up.body.parsed.value
    ensures r.ErrorReply? ==> r.code == 500
    ensures up.Answered? && !Ok2xx(up.status) ==> r == ErrorReply(500, EventsErrorPrefix + IntToString(up.status))
    ensures up.Answered? && Ok2xx(up.status) && up.body.Read? && up.body.parsed.None? ==>
      r.error == "Invalid JSON response from events API"
  {
    match up
    case Unreachable => ErrorReply(500, "Failed to fetch events")
    case Answered(status, body) =>
      if !Ok2xx(status) then ErrorReply(500, "Events API error: " + IntToString(status))
      else match body
        case Unreadable => ErrorReply(500, "Failed to fetch events")
        case Read(None) => ErrorReply(500, "Invalid JSON response from events API")
        case Read(Some(data)) => Json(data)
  }

  /** `GET /api/hackathons-api` (server/app.js:44-59): `response.json()` failing is caught
      with the fetch failure. */
  function HackathonsProxy<J>(up: Upstream<J>): (r: Reply<J>)
    ensures r.Json? <==> up.Answered? && Ok2xx(up.status) && up.body.Read? && up.body.parsed.Some?
    ensures r.Json? ==> r.value == up.body.parsed.value
    ensures r.ErrorReply? ==> r.code == 500
    ensures up.Answered? && !Ok2xx(up.status) ==> r == ErrorReply(500, HackathonsErrorPrefix + IntToString(up.status))
    ensures up.Answered? && Ok2xx(up.status) && !r.Json? ==> r.error == "Failed to fetch hackathons"
  {
    match up
    case Unreachable => ErrorReply(500, "Failed to fetch hackathons")
    case Answered(status, body) =>
      if !Ok2xx(status) then ErrorReply(500, "Hackathons API error: " + IntToString(status))
      else match body
        case Read(Some(data)) => Json(data)
        case _ => ErrorReply(500, "Failed to fetch hackathons")
  }

  /** The upstream status of a failed proxy call can be read back from the error text. */
  lemma UpstreamStatusInError<J>(up: Upstream<J>)
    requires up.Answered? && !Ok2xx(up.status)
    ensures var e := EventsProxy(up).error;
      HasPrefix(e, EventsErrorPrefix) && ParseInt(e[|EventsErrorPrefix|..]) == up.status
    ensures var e := HackathonsProxy(up).error;
      HasPrefix(e, HackathonsErrorPrefix) && ParseInt(e[|HackathonsErrorPrefix|..]) == up.status
  {
    var digits := IntToString(up.status);
    assert (EventsErrorPrefix + digits)[|EventsErrorPrefix|..] == digits;
    assert (HackathonsErrorPrefix + digits)[|HackathonsErrorPrefix|..] == digits;
    ParseIntToString(up.status);
  }

  /** `GET /api/slack-data` (server/app.js:62-65): the buffer exactly as `getExtractedData`
      returns it, live and batch entries of every channel alike. */
  function SlackData(bot: Ingestion): (r: Reply<seq<Message>>)
    reads bot
    ensures r.Json? && r.Status() == 200
    ensures r.value == bot.extractedData
    ensures forall m :: m in r.value <==> m in bot.extractedData
    ensures |r.value| == |bot.extractedData|
  {
    Json(bot.GetExtractedData())
  }

  /** `GET /api/slack-channels` (server/app.js:84-87): whatever `getBotChannels` returns. */
  method SlackChannels(bot: Ingestion, listing: Option<seq<ListedChannel>>, updated: string)
    returns (r: Reply<seq<Channel>>)
    requires bot.Valid()
    modifies bot
    ensures bot.Valid() && bot.extractedData == old(bot.extractedData)
    ensures bot.slackEnabled ==> r == Json(bot.botChannels)
    ensures bot.slackEnabled && listing.Some? ==> bot.botChannels == MemberChannels(listing.value, updated)
    ensures !bot.slackEnabled ==> r == Json([]) && bot.botChannels == old(bot.botChannels)
    ensures bot.slackEnabled && listing.None? ==> r == Json(old(bot.botChannels))
  {
    var channels := bot.GetBotChannels(listing, updated);
    r := Json(channels);
  }

  /** What the admin handler does: answer with an error, or reach the call of
      `slackBot.getAllData`, which server/slackBot.js does not export. */
  datatype AdminOutcome = Respond(reply: Reply<seq<Message>>) | CallsUndefined(name: string)

  /** `req.headers.authorization || req.query.admin_token`: the header unless absent or empty. */
  function AdminToken(header: Option<string>, query: Option<string>): (r: Option<string>)
    ensures header.Some? && header.value != "" ==> r == header
    ensures header.None? || header.value == "" ==> r == query
  {
    if header.Some? && header.value != "" then header else query
  }

  /** `!process.env.ADMIN_TOKEN` is false only for a non-empty value. */
  predicate Configured(adminEnv: Option<string>) {
    adminEnv.Some? && adminEnv.value != ""
  }

  /** `GET /api/slack-data-admin` (server/app.js:68-81). */
  function AdminGate(adminEnv: Option<string>, header: Option<string>, query: Option<string>): (r: AdminOutcome)
    ensures !Configured(adminEnv) ==> r == Respond(ErrorReply(503, "Admin functionality not configured"))
    ensures Configured(adminEnv) ==>
      (r.CallsUndefined? <==> AdminToken(header, query) == Some(adminEnv.value))
    ensures Configured(adminEnv) && r.Respond? ==> r == Respond(ErrorReply(401, "Invalid admin credentials"))
    ensures r.CallsUndefined? ==> r.name == "getAllData"
  {
    var token := AdminToken(header, query);
    if !Configured(adminEnv) then Respond(ErrorReply(503, "Admin functionality not configured"))
    else if token != Some(adminEnv.value) then Respond(ErrorReply(401, "Invalid admin credentials"))
    else CallsUndefined("getAllData")
  }

  /** No request ever gets data from the admin endpoint. */
  lemma AdminNeverServesData(adminEnv: Option<string>, header: Option<string>, query: Option<string>)
    ensures var r := AdminGate(adminEnv, header, query);
      r.Respond? ==> r.reply.ErrorReply? && r.reply.Status() in {401, 503}
  {
  }
}
