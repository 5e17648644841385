/** The pure helpers of client/script.js: channel-type and display-name lookups, relative
    time, hackathon location and sort key, message previews and permalinks, the channel
    filter and the filter-button list. Times are integer milliseconds. */
module Client {
  import opened Wrappers
  import opened Text
  import opened Seqs
  import opened RollingBuffer
  import SlackBot

  const HappeningsId := "C05B6DBN802"
  const HackathonsId := "C0NP503L7"
  const ShipId := "C0M8PUPU6"
  const AnnouncementsId := "C0266FRGT"

  /** The four channels with their own style and filter button. */
  const SeedIds: seq<string> := [HappeningsId, HackathonsId, ShipId, AnnouncementsId]

  /** What `getMessageType` returns. */
  datatype MessageType = Happenings | Hackathons | Ship | Announcements | Default {
    function Name(): string {
      match this
      case Happenings => "happenings"
      case Hackathons => "hackathons"
      case Ship => "ship"
      case Announcements => "announcements"
      case Default => "default"
    }
  }

  /** `getMessageType` (client/script.js:137-143). */
  function GetMessageType(channel: string): (t: MessageType)
    ensures t == Default <==> channel !in SeedIds
    ensures t != Default ==> channel == SeedIds[TypeIndex(t)]
  {
    if channel == HappeningsId then Happenings
    else if channel == HackathonsId then Hackathons
    else if channel == ShipId then Ship
    else if channel == AnnouncementsId then Announcements
    else Default
  }

  function TypeIndex(t: MessageType): nat
    requires t != Default
    ensures TypeIndex(t) < |SeedIds|
  {
    match t
    case Happenings => 0
    case Hackathons => 1
    case Ship => 2
    case Announcements => 3
  }

  /** Each monitored source's channel is styled as that source: the client's table agrees
      with the server's loaders. */
  lemma TypeMatchesServerSource(src: SlackBot.Source)
    ensures GetMessageType(src.ChannelId()).Name() == src.Tag()
  {
  }

  /** `getChannelIcon` (client/script.js:281-289). */
  function ChannelIcon(t: MessageType): (icon: string)
    ensures |icon| == 1
    ensures t == Default <==> icon == "\U{1F4AC}"
  {
    match t
    case Happenings => "\U{1F4F0}"
    case Hackathons => "\U{1F3C6}"
    case Ship => "\U{1F6A2}"
    case Announcements => "\U{1F4E2}"
    case Default => "\U{1F4AC}"
  }

  /** The built-in table of `getChannelDisplayName`. */
  const KnownChannels: map<string, string> := map[
    "C05B6DBN802" := "happenings",
    "C0NP503L7" := "hackathons",
    "C0M8PUPU6" := "ship",
    "C0266FRGT" := "announcements",
    "C08SPN75J4E" := "showcase",
    "C07G7LVA9PY" := "personal-blog",
    "C087B5QM9BP" := "personal-space",
    "C07MYBDLBGU" := "personal-updates",
    "C0956A8CL86" := "timeless-chat",
    "C015M4L9AHW" := "summer-of-making",
    "C090JKDJYN8" := "summer-of-making-support",
    "C08Q1H6D79B" := "highway",
    "C06T17NQB0B" := "athena",
    "C08N0R86DMJ" := "the-hacker-zephyr",
    "C03QSGGCJN7" := "hackathon-planning",
    "C01D7AHKMPF" := "community-teams",
    "C02UN35M7LG" := "ysws-console",
    "C093ALFAW8K" := "rewind",
    "C0931T5SEH4" := "jumpstart"
  ]

  /** `channelNames[id]` is truthy. */
  predicate NamedIn(names: map<string, string>, id: string) {
    id in names && names[id] != ""
  }

  /** `getChannelDisplayName` (client/script.js:163-193): the loaded name first, then the
      built-in table, and otherwise the id itself. */
  function ChannelDisplayName(names: map<string, string>, id: string): (r: string)
    ensures NamedIn(names, id) ==> r == names[id]
    ensures !NamedIn(names, id) && id in KnownChannels ==> r == KnownChannels[id]
    ensures !NamedIn(names, id) && id !in KnownChannels ==> r == id
    ensures id != "" ==> r != ""
  {
    if NamedIn(names, id) then names[id]
    else if id in KnownChannels && KnownChannels[id] != "" then KnownChannels[id]
    else id
  }

  /** The badge text of a message (client/script.js:246-247): `#` and the loaded name or id,
      with no second `#` when the name already has one. */
  function DisplayChannel(names: map<string, string>, channel: string): (r: string)
    ensures HasPrefix(r, "#")
    ensures var name := if NamedIn(names, channel) then names[channel] else channel;
      r == name || r == "#" + name
    ensures var name := if NamedIn(names, channel) then names[channel] else channel;
      HasPrefix(name, "#") ==> r == name
  {
    var name := if NamedIn(names, channel) then names[channel] else channel;
    if HasPrefix(name, "#") then name else "#" + name
  }

  const MsPerMinute: nat := 60000
  const MsPerHour: nat := 3600000
  const MsPerDay: nat := 86400000

  datatype Unit = Minutes | Hours | Days {
    function Ms(): nat {
      match this
      case Minutes => MsPerMinute
      case Hours => MsPerHour
      case Days => MsPerDay
    }
    function Suffix(): string {
      match this
      case Minutes => "m ago"
      case Hours => "h ago"
      case Days => "d ago"
    }
  }

  /** How long ago, as `formatTimestamp` rounds it; `NaN` for an unparseable date. */
  datatype Ago = Ago(count: int, unit: Unit) | NaN

  /** The age computation of `formatTimestamp` (client/script.js:146-159), Math.floor
      throughout: the unit is minutes below one hour, hours below one day, days otherwise,
      and the count is the number of whole units elapsed. */
  function Age(nowMs: int, dateMs: Option<int>): (a: Ago)
    ensures dateMs.None? <==> a.NaN?
    ensures dateMs.Some? ==>
      var d := nowMs - dateMs.value;
      && (a.unit == Minutes <==> d < MsPerHour)
      && (a.unit == Hours <==> MsPerHour <= d < MsPerDay)
      && (a.unit == Days <==> MsPerDay <= d)
      && a.unit.Ms() * a.count <= d < a.unit.Ms() * (a.count + 1)
  {
    match dateMs
    case None => NaN
    case Some(date) =>
      var diffInHours := (nowMs - date) / MsPerHour;
      if diffInHours < 1 then Ago((nowMs - date) / MsPerMinute, Minutes)
      else if diffInHours < 24 then Ago(diffInHours, Hours)
      else
        var days := diffInHours / 24;
        assert days == (nowMs - date) / MsPerDay;
        Ago(days, Days)
  }

  /** The text of an age: `${n}m ago`, `${n}h ago`, `${n}d ago`; `NaNd ago` for an invalid
      date, whose NaN comparisons all fail and fall through to the day branch. */
  function Render(a: Ago): (r: string)
    ensures a.NaN? ==> r == "NaNd ago"
    ensures a.Ago? ==> |r| > 5 && r[|r| - 5..] == a.unit.Suffix()
  {
    match a
    case NaN => "NaNd ago"
    case Ago(n, unit) => IntToString(n) + unit.Suffix()
  }

  /** `formatTimestamp(timestamp)` with the current time and the parsed date in ms. */
  function FormatTimestamp(nowMs: int, dateMs: Option<int>): (r: string)
    ensures dateMs.None? ==> r == "NaNd ago"
    ensures dateMs.Some? ==> |r| > 5 && r[|r| - 5..] == Age(nowMs, dateMs).unit.Suffix()
  {
    Render(Age(nowMs, dateMs))
  }

  /** The unit a rendered suffix names. */
  function UnitOf(suffix: string): Option<Unit> {
    if suffix == "m ago" then Some(Minutes)
    else if suffix == "h ago" then Some(Hours)
    else if suffix == "d ago" then Some(Days)
    else None
  }

  /** An optional '-' followed by digits. */
  predicate IntShaped(num: string) {
    |num| > 0 && (num[0] == '-' || IsDigit(num[0])) && forall i :: 1 <= i < |num| ==> IsDigit(num[i])
  }

  /** Reads a rendered age back. */
  function ParseAgo(s: string): Option<Ago> {
    if s == "NaNd ago" then Some(NaN)
    else if |s| < 6 then None
    else
      var num, unit := s[..|s| - 5], UnitOf(s[|s| - 5..]);
      if unit.None? || !IntShaped(num) then None
      else Some(Ago(ParseInt(num), unit.value))
  }

  /** The rendered text determines the age: count and unit can be read back. */
  lemma RenderRoundTrip(a: Ago)
    ensures ParseAgo(Render(a)) == Some(a)
  {
    if a.Ago? {
      var digits := IntToString(a.count);
      var s := digits + a.unit.Suffix();
      assert s[..|s| - 5] == digits && s[|s| - 5..] == a.unit.Suffix();
      assert UnitOf(a.unit.Suffix()) == Some(a.unit);
      assert IntShaped(digits);
      assert s != "NaNd ago" by {
        assert s[0] == digits[0];
      }
      ParseIntToString(a.count);
    }
  }

  /** The text `formatTimestamp` shows determines the elapsed count and unit. */
  lemma FormatTimestampRoundTrip(nowMs: int, dateMs: Option<int>)
    ensures ParseAgo(FormatTimestamp(nowMs, dateMs)) == Some(Age(nowMs, dateMs))
  {
    RenderRoundTrip(Age(nowMs, dateMs));
  }

  /** The milliseconds of `new Date('9999-12-31')`, the sort key of an undated hackathon. */
  const FarFutureMs: int := 253402214400000

  /** A hackathon as the client reads it: `start` absent or empty is `None`. */
  datatype Hackathon = Hackathon(name: string, start: Option<int>, virtual: bool, city: string, state: string, country: string)

  /** The comparator key of `loadHackathons`' sort (client/script.js:58-62). */
  function StartKey(h: Hackathon): (r: int)
    ensures h.start.Some? ==> r == h.start.value
    ensures h.start.None? ==> r == FarFutureMs
  {
    if h.start.Some? then h.start.value else FarFutureMs
  }

  /** `hackathons.sort(...)`: earliest start first. */
  function SortHackathons(hs: seq<Hackathon>): (r: seq<Hackathon>)
    ensures multiset(r) == multiset(hs)
    ensures forall i, j :: 0 <= i < j < |r| ==> StartKey(r[i]) <= StartKey(r[j])
  {
    SortBy(hs, StartKey)
  }

  /** With every start before 9999-12-31, the undated hackathons come after all dated ones. */
  lemma UndatedLast(hs: seq<Hackathon>)
    requires forall h :: h in hs && h.start.Some? ==> h.start.value < FarFutureMs
    ensures var r := SortHackathons(hs);
      forall i, j :: 0 <= i < j < |r| && r[i].start.None? ==> r[j].start.None?
  {
    var r := SortHackathons(hs);
    forall i, j | 0 <= i < j < |r| && r[i].start.None? ensures r[j].start.None? {
      assert StartKey(r[i]) <= StartKey(r[j]);
      assert r[j] in multiset(hs) by { assert r[j] in multiset(r); }
    }
  }

  /** The non-empty parts, in order. */
  function Present(parts: seq<string>): (r: seq<string>)
    ensures forall p :: p in r <==> p in parts && p != ""
    decreases |parts|
  {
    if parts == [] then []
    else if parts[0] == "" then Present(parts[1..])
    else [parts[0]] + Present(parts[1..])
  }

  /** Dropping the empty parts works piecewise, so it keeps their order. */
  lemma {:induction false} PresentAppend(a: seq<string>, b: seq<string>)
    ensures Present(a + b) == Present(a) + Present(b)
    decreases |a|
  {
    if a == [] {
      assert a + b == b;
    } else {
      assert (a + b)[1..] == a[1..] + b;
      PresentAppend(a[1..], b);
    }
  }

  /** The location line of a hackathon (client/script.js:65-79). */
  function HackathonLocation(h: Hackathon): (r: string)
    ensures h.virtual ==> r == "Online"
    ensures !h.virtual && Present([h.city, h.state, h.country]) == [] ==> r == "TBD"
    ensures !h.virtual && Present([h.city, h.state, h.country]) != [] ==>
      r == Join(Present([h.city, h.state, h.country]), ", ")
  {
    if h.virtual then "Online"
    else
      var parts := (if h.city != "" then [h.city] else [])
                 + (if h.state != "" then [h.state] else [])
                 + (if h.country != "" then [h.country] else []);
      assert parts == Present([h.city, h.state, h.country]) by {
        assert [h.city, h.state, h.country][1..] == [h.state, h.country];
        assert [h.state, h.country][1..] == [h.country];
        assert [h.country][1..] == [];
        assert Present([h.country]) == if h.country != "" then [h.country] else [];
        assert Present([h.state, h.country]) == (if h.state != "" then [h.state] else []) + Present([h.country]);
      }
      if |parts| > 0 then Join(parts, ", ") else "TBD"
  }

  /** `message.text.length > 500` */
  const LongThreshold: nat := 500

  predicate IsLongMessage(text: string): (r: bool)
    ensures r <==> Prefix(text, LongThreshold) != text
  {
    |text| > LongThreshold
  }

  /** A message body: shown whole, or a preview with the full text hidden behind "Read More". */
  datatype Content = Inline(text: string) | Expandable(preview: string, full: string)

  const SectionBreak := "<br><br>"

  /** The section shown by a long happenings message: the text before the first section
      break, or the first 300 characters when that section is empty. */
  function LeadSection(parsed: string): (r: string)
    ensures HasPrefix(parsed, r)
    ensures IndexOf(parsed, SectionBreak).None? ==> r == parsed
    ensures IndexOf(parsed, SectionBreak) == Some(0) ==> r == Prefix(parsed, 300)
    ensures IndexOf(parsed, SectionBreak).Some? && IndexOf(parsed, SectionBreak).value > 0 ==>
      OccursAt(parsed, SectionBreak, |r|) && forall k: nat :: !OccursAt(r, SectionBreak, k)
    ensures IndexOf(parsed, SectionBreak).Some? && IndexOf(parsed, SectionBreak).value > 0 ==>
      forall k: nat :: k < |r| ==> !OccursAt(parsed, SectionBreak, k)
  {
    match IndexOf(parsed, SectionBreak)
    case None => parsed
    case Some(k) =>
      if k == 0 then Prefix(parsed, 300)
      else
        var r := parsed[..k];
        assert forall j: nat :: OccursAt(r, SectionBreak, j) ==> OccursAt(parsed, SectionBreak, j) by {
          forall j: nat | OccursAt(r, SectionBreak, j) ensures OccursAt(parsed, SectionBreak, j) {
            assert parsed[j..j + |SectionBreak|] == r[j..j + |SectionBreak|];
          }
        }
        r
  }

  /** `renderMessageContent` with `renderHappeningsContent`, `renderShipContent` and
      `renderDefaultContent` (client/script.js:292-361). */
  function RenderContent(t: MessageType, parsed: string, isLong: bool): (c: Content)
    ensures !isLong <==> c == Inline(parsed)
    ensures c.Expandable? ==> c.full == parsed
    ensures c.Expandable? && t == Ship ==> c.preview == Prefix(parsed, 200) + "..."
    ensures c.Expandable? && t != Ship && t != Happenings ==> c.preview == Prefix(parsed, 300) + "..."
    ensures c.Expandable? && t == Happenings ==>
      c.preview == LeadSection(parsed) + (if IndexOf(parsed, SectionBreak).Some? then "<br><br>..." else "")
  {
    if !isLong then Inline(parsed)
    else match t
      case Happenings =>
        var more := IndexOf(parsed, SectionBreak).Some?;
        Expandable(LeadSection(parsed) + (if more then "<br><br>..." else ""), parsed)
      case Ship => Expandable(Prefix(parsed, 200) + "...", parsed)
      case _ => Expandable(Prefix(parsed, 300) + "...", parsed)
  }

  /** The `p...` part of a message's Slack link: the second `-`-separated piece of the id
      with its first `.` removed, the text "undefined" when there is no second piece; a
      numeric id has no `split`, and the call throws. */
  function PermalinkSuffix(id: MsgId): (r: Result<string>)
    ensures r.Throws? <==> id.Num?
  {
    match id
    case Num(_) => Throws("message.id.split is not a function")
    case Str(s) =>
      var pieces := Split(s, '-');
      Ok(if |pieces| < 2 then "undefined" else RemoveFirst(pieces[1], '.'))
  }

  /** The link of client/script.js:272. */
  function Permalink(channel: string, id: MsgId): (r: Result<string>)
    ensures r.Throws? <==> id.Num?
    ensures r.Ok? ==> HasPrefix(r.value, "https://hackclub.slack.com/archives/" + channel + "/p")
  {
    match PermalinkSuffix(id)
    case Throws(e) => Throws(e)
    case Ok(suffix) => Ok("https://hackclub.slack.com/archives/" + channel + "/p" + suffix)
  }

  /** An id without a `-` has no second piece: the link ends in "undefined". */
  lemma PermalinkSuffixUndashed(s: string)
    requires '-' !in s
    ensures PermalinkSuffix(Str(s)) == Ok("undefined")
  {
    SplitWithout(s, '-');
  }

  /** For an id `a-b` whose first `-` ends `a`, the suffix is the piece of `b` before its
      own first `-`, with the first `.` removed. */
  lemma PermalinkSuffixDashed(a: string, b: string)
    requires '-' !in a
    ensures PermalinkSuffix(Str(a + "-" + b)) == Ok(RemoveFirst(Split(b, '-')[0], '.'))
  {
    SplitAtFirst(a, '-', b);
  }

  /** For an id the server's loaders build from a Slack `ts` of the form `secs.micros`,
      the link suffix is `secs` followed by `micros`. */
  lemma PermalinkOfLoadedMessage(src: SlackBot.Source, secs: string, micros: string)
    requires '-' !in secs && '-' !in micros && '.' !in secs
    ensures PermalinkSuffix(Str(src.Prefix() + (secs + "." + micros))) == Ok(secs + micros)
  {
    var ts := secs + "." + micros;
    assert '-' !in src.Tag();
    assert '-' !in ts;
    assert src.Prefix() + ts == src.Tag() + ['-'] + ts;
    SplitAround(src.Tag(), '-', ts);
    assert ts[..|secs|] == secs && ts[|secs| + 1..] == micros;
    RemoveFirstAt(ts, '.', |secs|);
  }

  /** A message as the client receives it; its ISO timestamp already read as milliseconds. */
  datatype ClientMessage = ClientMessage(id: MsgId, timeMs: int, user: string, channel: string, text: string)

  /** `allSlackData.filter(message => message.channel === channel)` */
  function ForChannel(msgs: seq<ClientMessage>, channel: string): (r: seq<ClientMessage>)
    ensures forall m :: m in r <==> m in msgs && m.channel == channel
    ensures forall m :: multiset(r)[m] == if m.channel == channel then multiset(msgs)[m] else 0
    decreases |msgs|
  {
    if msgs == [] then []
    else
      assert msgs == [msgs[0]] + msgs[1..];
      if msgs[0].channel == channel then [msgs[0]] + ForChannel(msgs[1..], channel)
      else ForChannel(msgs[1..], channel)
  }

  /** The channel filter works piecewise, so it keeps every match in its input order. */
  lemma {:induction false} ForChannelAppend(a: seq<ClientMessage>, b: seq<ClientMessage>, channel: string)
    ensures ForChannel(a + b, channel) == ForChannel(a, channel) + ForChannel(b, channel)
    decreases |a|
  {
    if a == [] {
      assert a + b == b;
    } else {
      assert (a + b)[1..] == a[1..] + b;
      ForChannelAppend(a[1..], b, channel);
    }
  }

  /** A single message is kept exactly when it is of the channel. */
  lemma ForChannelOne(m: ClientMessage, channel: string)
    ensures ForChannel([m], channel) == if m.channel == channel then [m] else []
  {
    assert [m][1..] == [];
  }

  function NegTime(m: ClientMessage): int {
    -m.timeMs
  }

  /** `sort((a, b) => new Date(b.timestamp) - new Date(a.timestamp))`: most recent first. */
  function NewestFirst(msgs: seq<ClientMessage>): (r: seq<ClientMessage>)
    ensures multiset(r) == multiset(msgs)
    ensures forall i, j :: 0 <= i < j < |r| ==> r[i].timeMs >= r[j].timeMs
  {
    var r := SortBy(msgs, NegTime);
    assert forall i, j :: 0 <= i < j < |r| ==> NegTime(r[i]) <= NegTime(r[j]);
    r
  }

  /** With one channel selected the list shown is exactly that channel's messages, newest first. */
  lemma ShownIsChannel(msgs: seq<ClientMessage>, channel: string)
    ensures var r := NewestFirst(ForChannel(msgs, channel));
      (forall m :: m in r <==> m in msgs && m.channel == channel)
      && (forall m :: multiset(r)[m] == if m.channel == channel then multiset(msgs)[m] else 0)
      && (forall i :: 0 <= i < |r| ==> r[i].channel == channel)
  {
    var f := ForChannel(msgs, channel);
    var r := NewestFirst(f);
    forall m ensures m in r <==> m in f {
      assert m in r <==> m in multiset(r);
      assert m in f <==> m in multiset(f);
    }
    forall i | 0 <= i < |r| ensures r[i].channel == channel {
      assert r[i] in r;
    }
  }

  /** A channel as `/api/slack-channels` returns it. */
  datatype ClientChannel = ClientChannel(id: string, name: string, isPrivate: bool, purpose: string)

  /** The channels that get a button of their own after the four fixed ones
      (client/script.js:431-442): not one of those four, and not private. */
  function ExtraButtons(channels: seq<ClientChannel>): (r: seq<ClientChannel>)
    ensures forall c :: c in r <==> c in channels && c.id !in SeedIds && !c.isPrivate
    decreases |channels|
  {
    if channels == [] then []
    else if channels[0].id !in SeedIds && !channels[0].isPrivate then [channels[0]] + ExtraButtons(channels[1..])
    else ExtraButtons(channels[1..])
  }

  /** The button filter works piecewise, so the extra buttons follow the listing order. */
  lemma {:induction false} ExtraButtonsAppend(a: seq<ClientChannel>, b: seq<ClientChannel>)
    ensures ExtraButtons(a + b) == ExtraButtons(a) + ExtraButtons(b)
    decreases |a|
  {
    if a == [] {
      assert a + b == b;
    } else {
      assert (a + b)[1..] == a[1..] + b;
      ExtraButtonsAppend(a[1..], b);
    }
  }

  /** A single channel gets a button exactly when it is neither fixed nor private. */
  lemma ExtraButtonsOne(c: ClientChannel)
    ensures ExtraButtons([c]) == if c.id !in SeedIds && !c.isPrivate then [c] else []
  {
    assert [c][1..] == [];
  }

  function Ids(channels: seq<ClientChannel>): (r: seq<string>)
    ensures |r| == |channels| && forall i :: 0 <= i < |r| ==> r[i] == channels[i].id
  {
    seq(|channels|, i requires 0 <= i < |channels| => channels[i].id)
  }

  /** The ids of the extra buttons are exactly those of the listed channels that are
      neither fixed nor private. */
  lemma ExtraIds(channels: seq<ClientChannel>)
    ensures forall id :: id in Ids(ExtraButtons(channels)) <==>
      exists c :: c in channels && c.id == id && c.id !in SeedIds && !c.isPrivate
  {
    var extra := ExtraButtons(channels);
    assert forall i :: 0 <= i < |extra| ==> extra[i] in extra;
    forall id | exists c :: c in channels && c.id == id && c.id !in SeedIds && !c.isPrivate
      ensures id in Ids(extra)
    {
      var c :| c in channels && c.id == id && c.id !in SeedIds && !c.isPrivate;
      var i :| 0 <= i < |extra| && extra[i] == c;
      assert Ids(extra)[i] == id;
    }
  }

  /** The filter targets of the buttons `loadChannels` renders: "all", the four fixed
      channels, then the extra ones in listing order. */
  function FilterButtons(channels: seq<ClientChannel>): (r: seq<string>)
    ensures |r| >= 5 && r[..5] == ["all"] + SeedIds
    ensures r[5..] == Ids(ExtraButtons(channels))
    ensures forall i :: 5 <= i < |r| ==> r[i] !in SeedIds
    ensures forall id :: id in r[5..] <==> exists c :: c in channels && c.id == id && c.id !in SeedIds && !c.isPrivate
  {
    var extra := ExtraButtons(channels);
    ExtraIds(channels);
    assert forall i :: 0 <= i < |extra| ==> extra[i] in extra;
    var r := ["all"] + SeedIds + Ids(extra);
    assert r[5..] == Ids(extra);
    r
  }

  /** The buttons shown when the channel request fails (client/script.js:448-466); the
      announcements button is missing from this list. */
  const FallbackButtons: seq<string> := ["all", HappeningsId, HackathonsId, ShipId]

  /** `channelNames` is first seeded with these four. */
  const SeedNames: map<string, string> := map[
    HappeningsId := "happenings",
    HackathonsId := "hackathons",
    ShipId := "ship",
    AnnouncementsId := "announcements"
  ]

  /** `renderMessage` for one message: the parts that depend on data, not on markup.
      `parse` stands for `parseSlackMessage`. */
  datatype Rendered = Rendered(kind: MessageType, icon: string, badge: string, age: string, content: Content, link: string)

  function RenderMessage(m: ClientMessage, names: map<string, string>, nowMs: int, parse: string -> string): (r: Result<Rendered>)
    ensures r.Throws? <==> m.id.Num?
    ensures r.Ok? ==> r.value.kind == GetMessageType(m.channel) && r.value.content.Expandable? == IsLongMessage(m.text)
  {
    var kind := GetMessageType(m.channel);
    var content := RenderContent(kind, parse(m.text), IsLongMessage(m.text));
    match Permalink(m.channel, m.id)
    case Throws(e) => Throws(e)
    case Ok(link) => Ok(Rendered(kind, ChannelIcon(kind), DisplayChannel(names, m.channel),
                                 FormatTimestamp(nowMs, Some(m.timeMs)), content, link))
  }

  /** `filteredData.map(...)`: the list renders only when no message has a numeric id. */
  function RenderAll(msgs: seq<ClientMessage>, names: map<string, string>, nowMs: int, parse: string -> string): (r: Result<seq<Rendered>>)
    ensures r.Throws? <==> exists i :: 0 <= i < |msgs| && msgs[i].id.Num?
    ensures r.Ok? ==> |r.value| == |msgs|
    decreases |msgs|
  {
    if msgs == [] then Ok([])
    else match RenderMessage(msgs[0], names, nowMs, parse)
      case Throws(e) => Throws(e)
      case Ok(first) =>
        match RenderAll(msgs[1..], names, nowMs, parse)
        case Throws(e) =>
          ghost var i :| 0 <= i < |msgs[1..]| && msgs[1..][i].id.Num?;
          assert msgs[i + 1].id.Num?;
          Throws(e)
        case Ok(rest) =>
          assert forall i :: 0 <= i < |msgs| ==> !msgs[i].id.Num? by {
            forall i | 0 <= i < |msgs| ensures !msgs[i].id.Num? {
              if i > 0 {
                assert msgs[i] == msgs[1..][i - 1];
              }
            }
          }
          Ok([first] + rest)
  }
}
