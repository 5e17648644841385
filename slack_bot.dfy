/** server/slackBot.js: the module state `extractedData` and `botChannels` as the fields of
    one `Ingestion` object, the live message handler, the retrying history fetch, the
    channel listing, the four history loaders (one generic loader instantiated per source)
    and the two refresh cycles `startSlackBot` schedules. */
module SlackBot {
  import opened Wrappers
  import opened Text
  import opened Seqs
  import opened RollingBuffer
  import opened ChannelRegistry
  import opened Fetcher

  /** The four monitored channels, each with its hard-coded id, history limit and seed record. */
  datatype Source = Happenings | Hackathons | Ship | Announcements {
    function Tag(): string {
      match this
      case Happenings => "happenings"
      case Hackathons => "hackathons"
      case Ship => "ship"
      case Announcements => "announcements"
    }

    function ChannelId(): string {
      match this
      case Happenings => "C05B6DBN802"
      case Hackathons => "C0NP503L7"
      case Ship => "C0M8PUPU6"
      case Announcements => "C0266FRGT"
    }

    /** How many messages the loader asks for. */
    function Limit(): nat {
      match this
      case Hackathons => 2
      case _ => 1
    }

    function Purpose(): string {
      match this
      case Happenings => "Latest happenings and announcements"
      case Hackathons => "Hackathon announcements and updates"
      case Ship => "Latest projects and creations shipped"
      case Announcements => "Important announcements and updates"
    }

    /** The id prefix `"<tag>-"` of this source's entries. */
    function Prefix(): string {
      Tag() + "-"
    }

    /** The record the loader `unshift`s into `botChannels`. */
    function SeedChannel(updated: string): (c: Channel)
      ensures c.id == ChannelId() && c.name == Tag() && !c.isPrivate && c.numMembers == 0
      ensures c.purpose == Purpose() && c.updated == updated
    {
      Channel(ChannelId(), Tag(), false, 0, Purpose(), updated)
    }
  }

  /** `messages.map(message => ({ id: `<tag>-${message.ts}`, ... }))` */
  function TagBatch(src: Source, raws: seq<RawMessage>): (r: seq<Message>)
    ensures |r| == |raws|
    ensures forall i :: 0 <= i < |r| ==> TaggedWith(r[i], src.Prefix())
    ensures forall i :: 0 <= i < |r| ==>
      r[i].id == Str(src.Prefix() + raws[i].ts) && r[i].channel == src.ChannelId() &&
      r[i].user == raws[i].user && r[i].text == raws[i].text
  {
    seq(|raws|, i requires 0 <= i < |raws| =>
      Message(Str(src.Tag() + "-" + raws[i].ts), raws[i].ts, raws[i].user, src.ChannelId(), raws[i].text))
  }

  /** A snapshot of the two module-level lists. */
  datatype Store = Store(data: seq<Message>, channels: seq<Channel>)

  /** What one loader does to the state once its fetch has returned `fetched`:
      nothing for an empty fetch; nothing when the prefix filter throws; otherwise the
      upsert and the seeding of its channel. */
  function LoadStep(st: Store, src: Source, fetched: seq<RawMessage>, updated: string): (r: Store)
    ensures fetched == [] || HasNumericId(st.data) ==> r == st
    ensures fetched != [] && !HasNumericId(st.data) ==>
      |r.data| <= BatchCap && HasId(r.channels, src.ChannelId()) && |r.channels| <= |st.channels| + 1
  {
    if fetched == [] then st
    else match Upsert(st.data, src.Prefix(), TagBatch(src, fetched))
      case None => st
      case Some(data) => Store(data, Seed(st.channels, src.SeedChannel(updated)))
  }

  /** A load that fetched something and met no numeric id leaves, among the entries carrying
      the source's prefix, only the ones just fetched, and all of them when there are at
      most 50; and its channel is registered. */
  lemma LoadReplacesSource(st: Store, src: Source, fetched: seq<RawMessage>, updated: string)
    requires fetched != [] && !HasNumericId(st.data)
    ensures var after := LoadStep(st, src, fetched, updated);
      && (forall m :: m in after.data && TaggedWith(m, src.Prefix()) ==> m in TagBatch(src, fetched))
      && (|fetched| <= BatchCap ==> forall m :: m in TagBatch(src, fetched) ==> m in after.data)
      && HasId(after.channels, src.ChannelId())
  {
    var batch := TagBatch(src, fetched);
    OnlyFreshTagged(st.data, src.Prefix(), batch);
    if |fetched| <= BatchCap {
      FreshInFront(st.data, src.Prefix(), batch);
      ReverseMembers(batch);
      var data := LoadStep(st, src, fetched, updated).data;
      forall m | m in batch ensures m in data {
        assert m in Reverse(batch);
        var k :| 0 <= k < |batch| && Reverse(batch)[k] == m;
        assert data[..|batch|][k] == m;
      }
    }
  }

  /** A load never leaves more than 50 entries behind it when it started from at most 50. */
  lemma LoadBounded(st: Store, src: Source, fetched: seq<RawMessage>, updated: string)
    requires |st.data| <= BatchCap
    ensures |LoadStep(st, src, fetched, updated).data| <= BatchCap
    ensures |LoadStep(st, src, fetched, updated).channels| <= |st.channels| + 1
  {
  }

  /** Loading the same source twice from an unchanged history is loading it once, whatever
      time the second load stamps on its channel record. */
  lemma LoadIdempotent(st: Store, src: Source, fetched: seq<RawMessage>, first: string, second: string)
    requires |fetched| <= BatchCap
    ensures var once := LoadStep(st, src, fetched, first);
      LoadStep(once, src, fetched, second) == once
  {
    if fetched != [] && !HasNumericId(st.data) {
      var batch := TagBatch(src, fetched);
      UpsertIdempotent(st.data, src.Prefix(), batch);
      SeedIdempotent(st.channels, src.SeedChannel(first), src.SeedChannel(second));
    }
  }

  /** None of the four prefixes is a prefix of another, so no id carries two of them. */
  lemma PrefixesDisjoint(a: Source, b: Source, s: string)
    requires a != b && HasPrefix(s, a.Prefix())
    ensures !HasPrefix(s, b.Prefix())
  {
    var p, q := a.Prefix(), b.Prefix();
    var n := Min(|p|, |q|);
    var k := if (a.Happenings? || a.Hackathons?) && (b.Happenings? || b.Hackathons?) then 2 else 0;
    assert p[..n][k] != q[..n][k];
    SharedPrefix(s, p, q);
  }

  lemma SharedPrefix(s: string, p: string, q: string)
    ensures HasPrefix(s, p) && HasPrefix(s, q) ==> p[..Min(|p|, |q|)] == q[..Min(|p|, |q|)]
  {
    if HasPrefix(s, p) && HasPrefix(s, q) {
      var n := Min(|p|, |q|);
      assert p[..n] == s[..n] == q[..n];
    }
  }

  /** A load of one source keeps every entry of another source (up to the 50-entry cap). */
  lemma LoadKeepsOtherSources(st: Store, src: Source, other: Source, m: Message)
    requires src != other && m in st.data && TaggedWith(m, other.Prefix())
    ensures m in Untagged(st.data, src.Prefix())
  {
    PrefixesDisjoint(other, src, m.id.s);
  }

  /** The live handler's entry makes every later load a no-op: state and registry stay. */
  lemma LiveEntryBlocksLoads(st: Store, ev: Event, nowMs: int, src: Source, fetched: seq<RawMessage>, updated: string)
    ensures var live := Store(LivePrepend(st.data, LiveMessage(ev, nowMs)), st.channels);
      LoadStep(live, src, fetched, updated) == live
  {
    LiveEntryBlocksUpsert(st.data, ev, nowMs, src.Prefix(), TagBatch(src, fetched));
  }

  /** The two schedules of `startSlackBot`. */
  datatype CycleKind = Startup | Periodic

  /** Delay before the cycle starts: 2 s after start, then every 2 hours. */
  function InitialDelayMs(kind: CycleKind): nat {
    match kind
    case Startup => 2000
    case Periodic => 2 * 60 * 60 * 1000
  }

  /** Wait between the happenings load and the announcements load. */
  function GapMs(kind: CycleKind): nat {
    match kind
    case Startup => 15000
    case Periodic => 30000
  }

  /** What a cycle does, in order: sleeps and completed loads. */
  datatype Step = Slept(ms: nat) | Loaded(src: Source)

  function RetrySteps(sleeps: seq<nat>): (r: seq<Step>)
    ensures |r| == |sleeps| && forall i :: 0 <= i < |r| ==> r[i] == Slept(sleeps[i] * 1000)
  {
    seq(|sleeps|, i requires 0 <= i < |sleeps| => Slept(sleeps[i] * 1000))
  }

  /** The trace of one cycle, given the rate-limit sleeps (seconds) of its two loads. */
  function CycleTrace(kind: CycleKind, first: seq<nat>, second: seq<nat>): (t: seq<Step>)
    ensures |t| == |first| + |second| + 4
    ensures t[0] == Slept(InitialDelayMs(kind)) && t[|t| - 1] == Loaded(Announcements)
    ensures Loaded(Happenings) in t
  {
    [Slept(InitialDelayMs(kind))] + RetrySteps(first) + [Loaded(Happenings), Slept(GapMs(kind))]
      + RetrySteps(second) + [Loaded(Announcements)]
  }

  /** In a cycle only sleeps precede the completed happenings load, the gap follows it at once,
      and only the announcements load's own retry sleeps stand between the gap and its end. */
  lemma CycleOrder(kind: CycleKind, first: seq<nat>, second: seq<nat>)
    ensures var t := CycleTrace(kind, first, second);
      var h := |first| + 1;
      && |t| == |first| + |second| + 4
      && t[h] == Loaded(Happenings) && t[h + 1] == Slept(GapMs(kind))
      && t[|t| - 1] == Loaded(Announcements)
      && (forall j :: 0 <= j < h ==> t[j].Slept?)
      && (forall j :: h + 1 < j < |t| - 1 ==> t[j] == Slept(second[j - h - 2] * 1000))
  {
    var t := CycleTrace(kind, first, second);
    var h := |first| + 1;
    forall j | 0 <= j < h ensures t[j].Slept? {
      if j > 0 { assert t[j] == RetrySteps(first)[j - 1]; }
    }
    forall j | h + 1 < j < |t| - 1 ensures t[j] == Slept(second[j - h - 2] * 1000) {
      assert t[j] == RetrySteps(second)[j - h - 2];
    }
  }

  /** The ingestion state of the server process. */
  class Ingestion {
    /** `extractedData`: the most recently added batch or live message first, each batch in
        reversed fetch order. */
    var extractedData: seq<Message>
    /** `botChannels` */
    var botChannels: seq<Channel>
    /** Whether the Slack app was created (both tokens present); fixed for the process. */
    const slackEnabled: bool

    ghost predicate Valid()
      reads this
    {
      |extractedData| <= BatchCap
    }

    function Snapshot(): Store
      reads this
    {
      Store(extractedData, botChannels)
    }

    /** `getExtractedData` */
    function GetExtractedData(): (r: seq<Message>)
      reads this
      ensures r == extractedData
    {
      extractedData
    }

    constructor (enabled: bool)
      ensures Valid() && slackEnabled == enabled
      ensures extractedData == [] && botChannels == []
    {
      slackEnabled := enabled;
      extractedData := [];
      botChannels := [];
    }

    /** The `message` event handler; only registered when the Slack app exists. */
    method OnMessage(ev: Event, nowMs: int)
      requires Valid()
      modifies this
      ensures Valid() && botChannels == old(botChannels)
      ensures extractedData == if slackEnabled && Qualifies(ev)
        then LivePrepend(old(extractedData), LiveMessage(ev, nowMs))
        else old(extractedData)
    {
      if slackEnabled && ev.channelType == "channel" && ev.botId == "" && ev.text != "" {
        var m := Message(Num(nowMs), ev.ts, ev.user, ev.channel, ev.text);
        extractedData := [m] + extractedData;
        if |extractedData| > LiveCap {
          extractedData := extractedData[..LiveCap];
        }
      }
    }

    /** `getChannelHistory(channelId, limit, retries)`, the recursion unrolled into a loop.
        `channelId` and `limit` go to the platform, whose answers `outcomes` stands for. */
    method GetChannelHistory(channelId: string, limit: nat, retries: int, outcomes: seq<CallOutcome>)
      returns (messages: seq<RawMessage>, calls: nat, sleeps: seq<nat>)
      ensures History(messages, calls, sleeps) == FetchHistory(slackEnabled, outcomes, retries)
    {
      if !slackEnabled {
        return [], 0, [];
      }
      var left := Budget(retries);
      calls, sleeps := 0, [];
      ghost var goal := FetchHistory(slackEnabled, outcomes, retries);
      assert goal == Attempt(outcomes, 0, left);
      while true
        invariant var h := Attempt(outcomes, calls, left);
          goal == History(h.messages, calls + h.calls, sleeps + h.sleeps)
        decreases left
      {
        var outcome := OutcomeAt(outcomes, calls);
        ghost var h := Attempt(outcomes, calls, left);
        calls := calls + 1;
        match outcome {
          case Delivered(ms) =>
            assert h == History(ms, 1, []);
            assert sleeps + [] == sleeps;
            return ms, calls, sleeps;
          case Failed =>
            assert h == History([], 1, []);
            assert sleeps + [] == sleeps;
            return [], calls, sleeps;
          case RateLimited(ra) =>
            if left == 0 {
              assert h == History([], 1, []);
              assert sleeps + [] == sleeps;
              return [], calls, sleeps;
            }
            ghost var rest := Attempt(outcomes, calls, left - 1);
            assert h == History(rest.messages, rest.calls + 1, [RetryDelay(ra)] + rest.sleeps);
            assert sleeps + ([RetryDelay(ra)] + rest.sleeps) == (sleeps + [RetryDelay(ra)]) + rest.sleeps;
            sleeps := sleeps + [RetryDelay(ra)];
            left := left - 1;
        }
      }
    }

    /** `getBotChannels`: replaces the list by the member channels on success, keeps and
        returns the cached list when the listing fails, returns [] without a Slack app. */
    method GetBotChannels(listing: Option<seq<ListedChannel>>, updated: string) returns (r: seq<Channel>)
      requires Valid()
      modifies this
      ensures Valid() && extractedData == old(extractedData)
      ensures !slackEnabled ==> r == [] && botChannels == old(botChannels)
      ensures slackEnabled && listing.Some? ==> r == botChannels == MemberChannels(listing.value, updated)
      ensures slackEnabled && listing.None? ==> r == botChannels == old(botChannels)
    {
      if !slackEnabled {
        return [];
      }
      match listing {
        case Some(listed) =>
          botChannels := MemberChannels(listed, updated);
        case None =>
      }
      r := botChannels;
    }

    /** One of `loadHappeningsHistory`, `loadHackathonsHistory`, `loadShipHistory`,
        `loadAnnouncementsHistory`: fetch with the default budget, then the replace-by-tag
        upsert and the seeding; the TypeError of the prefix filter aborts both.
        Returns the rate-limit sleeps (seconds) the fetch took. */
    method LoadHistory(src: Source, outcomes: seq<CallOutcome>, updated: string) returns (sleeps: seq<nat>)
      requires Valid()
      modifies this
      ensures Valid()
      ensures sleeps == FetchHistory(slackEnabled, outcomes, DefaultRetries).sleeps
      ensures Snapshot() == LoadStep(old(Snapshot()), src, FetchHistory(slackEnabled, outcomes, DefaultRetries).messages, updated)
      ensures FetchHistory(slackEnabled, outcomes, DefaultRetries).messages == [] ==> Snapshot() == old(Snapshot())
      ensures HasNumericId(old(extractedData)) ==> Snapshot() == old(Snapshot())
    {
      var messages, calls;
      messages, calls, sleeps := GetChannelHistory(src.ChannelId(), src.Limit(), DefaultRetries, outcomes);
      if |messages| == 0 {
        return;
      }
      var batch := TagBatch(src, messages);
      var kept := StripTag(extractedData, src.Prefix());
      if kept.None? {
        return;
      }
      extractedData := kept.value;
      extractedData := Reverse(batch) + extractedData;
      if |extractedData| > BatchCap {
        extractedData := extractedData[..BatchCap];
      }
      if !HasId(botChannels, src.ChannelId()) {
        botChannels := [src.SeedChannel(updated)] + botChannels;
      }
    }

    /** One run of the startup timer or of the periodic timer: happenings, the gap,
        announcements, strictly in that order. Nothing is scheduled without a Slack app.
        Each loader reads the clock itself: `firstUpdated` and `secondUpdated` are those two reads. */
    method RunCycle(kind: CycleKind, first: seq<CallOutcome>, second: seq<CallOutcome>,
                    firstUpdated: string, secondUpdated: string)
      returns (trace: seq<Step>)
      requires Valid()
      modifies this
      ensures Valid()
      ensures !slackEnabled ==> trace == [] && Snapshot() == old(Snapshot())
      ensures slackEnabled ==>
        trace == CycleTrace(kind, FetchHistory(true, first, DefaultRetries).sleeps,
                                  FetchHistory(true, second, DefaultRetries).sleeps)
      ensures slackEnabled ==>
        Snapshot() == LoadStep(LoadStep(old(Snapshot()), Happenings, FetchHistory(true, first, DefaultRetries).messages, firstUpdated),
                               Announcements, FetchHistory(true, second, DefaultRetries).messages, secondUpdated)
    {
      if !slackEnabled {
        return [];
      }
      trace := [Slept(InitialDelayMs(kind))];
      var s1 := LoadHistory(Happenings, first, firstUpdated);
      trace := trace + RetrySteps(s1) + [Loaded(Happenings)];
      trace := trace + [Slept(GapMs(kind))];
      var s2 := LoadHistory(Announcements, second, secondUpdated);
      trace := trace + RetrySteps(s2) + [Loaded(Announcements)];
    }
  }
}
