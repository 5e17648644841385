/** The state of client/script.js: the globals `selectedChannel`, `allSlackData` and
    `channelNames` (client/script.js:98-100), the filter buttons `loadChannels` renders, and
    the functions that rewrite them. Network answers are parameters. */
module Dashboard {
  import opened Wrappers
  import opened Seqs
  import opened Client

  /** The name map `loadChannels` builds (client/script.js:387-397): the four fixed names,
      then each listed channel in turn sets its own name. */
  function NamesAfter(channels: seq<ClientChannel>): map<string, string>
    decreases |channels|
  {
    if channels == [] then SeedNames
    else
      var last := channels[|channels| - 1];
      NamesAfter(channels[..|channels| - 1])[last.id := last.name]
  }

  /** An id is in the map iff it is a fixed id or some listed channel carries it. */
  lemma {:induction false} NamesDomainAt(channels: seq<ClientChannel>, id: string)
    ensures id in NamesAfter(channels) <==>
      id in SeedNames || exists i :: 0 <= i < |channels| && channels[i].id == id
    decreases |channels|
  {
    if channels != [] {
      var n := |channels| - 1;
      var init := channels[..n];
      NamesDomainAt(init, id);
      if id == channels[n].id {
        assert 0 <= n < |channels| && channels[n].id == id;
      } else {
        if exists i :: 0 <= i < |channels| && channels[i].id == id {
          var i :| 0 <= i < |channels| && channels[i].id == id;
          assert i < n && init[i] == channels[i];
        }
        if exists i :: 0 <= i < |init| && init[i].id == id {
          var i :| 0 <= i < |init| && init[i].id == id;
          assert channels[i] == init[i];
        }
      }
    }
  }

  /** A listed channel whose id is not listed again later keeps its own name: the last
      listing of an id wins. */
  lemma {:induction false} NamesLastWins(channels: seq<ClientChannel>, i: nat)
    requires i < |channels|
    requires forall j :: i < j < |channels| ==> channels[j].id != channels[i].id
    ensures channels[i].id in NamesAfter(channels)
    ensures NamesAfter(channels)[channels[i].id] == channels[i].name
    decreases |channels|
  {
    if i < |channels| - 1 {
      var init := channels[..|channels| - 1];
      assert init[i] == channels[i];
      forall j | i < j < |init|
        ensures init[j].id != init[i].id
      {
        assert init[j] == channels[j];
      }
      NamesLastWins(init, i);
    }
  }

  /** A channel listed under no other record with its id is shown under its own name. */
  lemma NamesOfUniqueIds(channels: seq<ClientChannel>)
    ensures forall c :: c in channels && (forall d :: d in channels && d.id == c.id ==> d == c) ==>
      c.id in NamesAfter(channels) && NamesAfter(channels)[c.id] == c.name
  {
    forall c | c in channels && (forall d :: d in channels && d.id == c.id ==> d == c)
      ensures c.id in NamesAfter(channels) && NamesAfter(channels)[c.id] == c.name
    {
      var i :| 0 <= i < |channels| && channels[i] == c;
      var l := LastWithId(channels, c.id, i);
      assert channels[l] in channels;
      NamesLastWins(channels, l);
    }
  }

  /** A fixed id that no listed channel carries keeps its built-in name. */
  lemma {:induction false} NamesKeepSeeds(channels: seq<ClientChannel>, id: string)
    requires id in SeedNames
    requires forall i :: 0 <= i < |channels| ==> channels[i].id != id
    ensures id in NamesAfter(channels) && NamesAfter(channels)[id] == SeedNames[id]
    decreases |channels|
  {
    if channels != [] {
      var init := channels[..|channels| - 1];
      forall i | 0 <= i < |init|
        ensures init[i].id != id
      {
        assert init[i] == channels[i];
      }
      NamesKeepSeeds(init, id);
    }
  }

  /** The `forEach` of `loadChannels` (client/script.js:387-397), as the loop it is. */
  method BuildChannelNames(channels: seq<ClientChannel>) returns (names: map<string, string>)
    ensures names == NamesAfter(channels)
  {
    names := map[];
    names := names[HappeningsId := "happenings"];
    names := names[HackathonsId := "hackathons"];
    names := names[ShipId := "ship"];
    names := names[AnnouncementsId := "announcements"];
    assert names == SeedNames;
    var k := 0;
    while k < |channels|
      invariant 0 <= k <= |channels|
      invariant names == NamesAfter(channels[..k])
    {
      assert channels[..k + 1][..k] == channels[..k];
      names := names[channels[k].id := channels[k].name];
      k := k + 1;
    }
    assert channels[..k] == channels;
  }

  /** The list `displayFilteredMessages` hands to rendering: every message under 'all',
      otherwise the selected channel's, most recent first. */
  function Shown(data: seq<ClientMessage>, selected: string): (r: seq<ClientMessage>)
    ensures forall m :: m in r <==> m in data && (selected == "all" || m.channel == selected)
    ensures forall i, j :: 0 <= i < j < |r| ==> r[i].timeMs >= r[j].timeMs
  {
    var pool := if selected == "all" then data else ForChannel(data, selected);
    var r := NewestFirst(pool);
    assert forall m :: m in r <==> m in multiset(pool);
    r
  }

  /** The shown list holds each message of the selected channel (every message under
      'all') exactly as often as the data does, and no other. */
  lemma ShownCounts(data: seq<ClientMessage>, selected: string)
    ensures multiset(Shown(data, selected)) == multiset(if selected == "all" then data else ForChannel(data, selected))
    ensures forall m ::
      multiset(Shown(data, selected))[m] == if selected == "all" || m.channel == selected then multiset(data)[m] else 0
  {
    var pool := if selected == "all" then data else ForChannel(data, selected);
    assert Shown(data, selected) == NewestFirst(pool);
  }

  class Dashboard {
    /** 'all' or a channel id. */
    var selectedChannel: string
    var allSlackData: seq<ClientMessage>
    var channelNames: map<string, string>
    /** The filter targets of the rendered buttons, in order. */
    var filterButtons: seq<string>

    constructor ()
      ensures selectedChannel == "all" && allSlackData == [] && channelNames == map[] && filterButtons == []
    {
      selectedChannel := "all";
      allSlackData := [];
      channelNames := map[];
      filterButtons := [];
    }

    /** `loadChannels`: on an answer, rebuild the names and the buttons; on a failed
        request, keep the names and show the fallback buttons. */
    method LoadChannels(response: Option<seq<ClientChannel>>)
      modifies this
      ensures selectedChannel == old(selectedChannel) && allSlackData == old(allSlackData)
      ensures response.None? ==> channelNames == old(channelNames) && filterButtons == FallbackButtons
      ensures response.Some? ==> filterButtons == FilterButtons(response.value)
      ensures response.Some? ==> channelNames == NamesAfter(response.value)
      ensures response.Some? ==> forall id :: id in channelNames <==>
        id in SeedNames || exists i :: 0 <= i < |response.value| && response.value[i].id == id
      ensures response.Some? ==> forall c :: c in response.value && (forall d :: d in response.value && d.id == c.id ==> d == c) ==>
        c.id in channelNames && channelNames[c.id] == c.name
    {
      match response {
        case None =>
          filterButtons := FallbackButtons;
        case Some(channels) =>
          channelNames := BuildChannelNames(channels);
          filterButtons := FilterButtons(channels);
          forall id {
            NamesDomainAt(channels, id);
          }
          NamesOfUniqueIds(channels);
      }
    }

    /** `displayFilteredMessages` up to rendering: with 'all' the global array itself is
        sorted in place; otherwise a filtered copy is sorted and the global is untouched. */
    method DisplayFilteredMessages() returns (shown: seq<ClientMessage>)
      modifies this
      ensures selectedChannel == old(selectedChannel) && channelNames == old(channelNames)
      ensures filterButtons == old(filterButtons)
      ensures selectedChannel == "all" ==> allSlackData == NewestFirst(old(allSlackData)) && shown == allSlackData
      ensures selectedChannel != "all" ==>
        allSlackData == old(allSlackData) && shown == NewestFirst(ForChannel(allSlackData, selectedChannel))
      ensures shown == Shown(old(allSlackData), selectedChannel)
    {
      if selectedChannel == "all" {
        allSlackData := NewestFirst(allSlackData);
        shown := allSlackData;
      } else {
        shown := NewestFirst(ForChannel(allSlackData, selectedChannel));
      }
    }

    /** `filterByChannel`: select the channel and display it. */
    method FilterByChannel(channelId: string) returns (shown: seq<ClientMessage>)
      modifies this
      ensures selectedChannel == channelId && channelNames == old(channelNames)
      ensures filterButtons == old(filterButtons)
      ensures channelId == "all" ==> allSlackData == NewestFirst(old(allSlackData))
      ensures channelId != "all" ==> allSlackData == old(allSlackData)
      ensures shown == Shown(old(allSlackData), channelId)
      ensures channelId != "all" ==> forall m :: m in shown <==> m in allSlackData && m.channel == channelId
    {
      selectedChannel := channelId;
      shown := DisplayFilteredMessages();
      if channelId != "all" {
        ShownIsChannel(allSlackData, channelId);
      }
    }

    /** The names check of `loadSlackData` (client/script.js:214-216): load the channels
        only when no name is known. */
    method EnsureChannelNames(channels: Option<seq<ClientChannel>>)
      modifies this
      ensures selectedChannel == old(selectedChannel) && allSlackData == old(allSlackData)
      ensures |old(channelNames)| > 0 ==> channelNames == old(channelNames) && filterButtons == old(filterButtons)
      ensures |old(channelNames)| == 0 && channels.Some? ==>
        channelNames == NamesAfter(channels.value) && filterButtons == FilterButtons(channels.value)
      ensures |old(channelNames)| == 0 && channels.None? ==>
        channelNames == old(channelNames) && filterButtons == FallbackButtons
    {
      if |channelNames| == 0 {
        LoadChannels(channels);
      }
    }

    /** `loadSlackData`: store the answer, load the channels first (with the answer
        `channels`) when no name is known, then display. The error text is shown (None)
        when the request fails or when rendering the displayed list throws. */
    method LoadSlackData(response: Option<seq<ClientMessage>>, channels: Option<seq<ClientChannel>>,
                         nowMs: int, parse: string -> string)
      returns (shown: Option<seq<ClientMessage>>)
      modifies this
      ensures selectedChannel == old(selectedChannel)
      ensures response.None? ==> shown.None? && allSlackData == old(allSlackData)
      ensures response.None? || |old(channelNames)| > 0 ==>
        channelNames == old(channelNames) && filterButtons == old(filterButtons)
      ensures response.Some? && |old(channelNames)| == 0 && channels.Some? ==>
        channelNames == NamesAfter(channels.value) && filterButtons == FilterButtons(channels.value)
      ensures response.Some? && |old(channelNames)| == 0 && channels.None? ==>
        channelNames == old(channelNames) && filterButtons == FallbackButtons
      ensures response.Some? && selectedChannel == "all" ==> allSlackData == NewestFirst(response.value)
      ensures response.Some? && selectedChannel != "all" ==> allSlackData == response.value
      ensures response.Some? ==>
        (shown.None? <==> exists i :: 0 <= i < |Shown(response.value, selectedChannel)| &&
                                      Shown(response.value, selectedChannel)[i].id.Num?)
      ensures shown.Some? ==> shown.value == Shown(response.value, selectedChannel)
    {
      if response.None? {
        return None;
      }
      allSlackData := response.value;
      EnsureChannelNames(channels);
      var list := DisplayFilteredMessages();
      match RenderAll(list, channelNames, nowMs, parse)
      case Throws(_) => shown := None;
      case Ok(_) => shown := Some(list);
    }
  }

  /** The index of the last channel with a given id, at or after a known one. */
  lemma LastWithId(channels: seq<ClientChannel>, id: string, from: nat) returns (l: nat)
    requires from < |channels| && channels[from].id == id
    ensures from <= l < |channels| && channels[l].id == id
    ensures forall j :: l < j < |channels| ==> channels[j].id != id
    decreases |channels| - from
  {
    if exists j :: from < j < |channels| && channels[j].id == id {
      var j :| from < j < |channels| && channels[j].id == id;
      l := LastWithId(channels, id, j);
    } else {
      l := from;
    }
  }
}
