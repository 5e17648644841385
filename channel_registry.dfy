/** The server's channel list `botChannels` (server/slackBot.js:10): the records it holds,
    how `getBotChannels` rebuilds it from a channel listing, and how a loader seeds its own
    channel into it. */
module ChannelRegistry {
  import opened Wrappers

  /** One entry of `botChannels`. */
  datatype Channel = Channel(id: string, name: string, isPrivate: bool, numMembers: int, purpose: string, updated: string)

  /** One channel as the platform's listing reports it. `numMembers` and `purpose` may be absent. */
  datatype ListedChannel = ListedChannel(id: string, name: string, isMember: bool, numMembers: Option<int>, purpose: Option<string>)

  /** `channel.num_members || 0` and `channel.purpose?.value || ''` (an absent value, 0 and
      the empty string are all falsy, and each falls back to the same default). */
  function ToChannel(lc: ListedChannel, updated: string): (c: Channel)
    ensures c.id == lc.id && c.name == lc.name && !c.isPrivate && c.updated == updated
    ensures c.numMembers == (if lc.numMembers.Some? then lc.numMembers.value else 0)
    ensures c.purpose == (if lc.purpose.Some? then lc.purpose.value else "")
  {
    Channel(lc.id, lc.name, false, lc.numMembers.GetOr(0), lc.purpose.GetOr(""), updated)
  }

  /** `channels.filter(channel => channel.is_member)` */
  function Members(listed: seq<ListedChannel>): (r: seq<ListedChannel>)
    ensures |r| <= |listed|
    ensures forall lc :: lc in r <==> lc in listed && lc.isMember
    decreases |listed|
  {
    if listed == [] then []
    else if listed[0].isMember then [listed[0]] + Members(listed[1..])
    else Members(listed[1..])
  }

  /** The member filter works piecewise, so it keeps the listing order. */
  lemma {:induction false} MembersAppend(a: seq<ListedChannel>, b: seq<ListedChannel>)
    ensures Members(a + b) == Members(a) + Members(b)
    decreases |a|
  {
    if a == [] {
      assert a + b == b;
    } else {
      assert (a + b)[1..] == a[1..] + b;
      MembersAppend(a[1..], b);
    }
  }

  /** The list `getBotChannels` stores on success: the member channels mapped by ToChannel. */
  function MemberChannels(listed: seq<ListedChannel>, updated: string): (r: seq<Channel>)
    ensures |r| == |Members(listed)|
    ensures forall i :: 0 <= i < |r| ==> r[i] == ToChannel(Members(listed)[i], updated)
  {
    seq(|Members(listed)|, i requires 0 <= i < |Members(listed)| => ToChannel(Members(listed)[i], updated))
  }

  /** The stored list holds exactly the member channels, public, in listing order. */
  lemma MemberChannelsExact(listed: seq<ListedChannel>, updated: string)
    ensures forall c :: c in MemberChannels(listed, updated) <==>
      exists lc :: lc in listed && lc.isMember && c == ToChannel(lc, updated)
    ensures forall c :: c in MemberChannels(listed, updated) ==> !c.isPrivate
  {
    var ms := Members(listed);
    var r := MemberChannels(listed, updated);
    forall c | c in r ensures exists lc :: lc in listed && lc.isMember && c == ToChannel(lc, updated) {
      var i :| 0 <= i < |r| && r[i] == c;
      assert ms[i] in ms;
    }
    forall c | exists lc :: lc in listed && lc.isMember && c == ToChannel(lc, updated)
      ensures c in r
    {
      var lc :| lc in listed && lc.isMember && c == ToChannel(lc, updated);
      assert lc in ms;
      var i :| 0 <= i < |ms| && ms[i] == lc;
      assert r[i] == c;
    }
  }

  /** `botChannels.some(ch => ch.id === id)` */
  predicate HasId(reg: seq<Channel>, id: string) {
    exists i :: 0 <= i < |reg| && reg[i].id == id
  }

  /** A loader's seeding step: `unshift` its channel unless an entry already has that id. */
  function Seed(reg: seq<Channel>, ch: Channel): (r: seq<Channel>)
    ensures HasId(r, ch.id)
    ensures HasId(reg, ch.id) ==> r == reg
    ensures !HasId(reg, ch.id) ==> |r| == |reg| + 1 && r[0] == ch && r[1..] == reg
  {
    if HasId(reg, ch.id) then reg
    else
      assert ([ch] + reg)[0].id == ch.id;
      [ch] + reg
  }

  /** Seeding the same channel twice is seeding it once. */
  lemma SeedIdempotent(reg: seq<Channel>, ch: Channel, later: Channel)
    requires later.id == ch.id
    ensures Seed(Seed(reg, ch), later) == Seed(reg, ch)
  {
  }
}
