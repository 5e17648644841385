/** The server's message store `extractedData` (server/slackBot.js): its entries,
    the replace-by-tag upsert the batch loaders perform and the prepend the live
    event handler performs, as functions on values. The class in module SlackBot
    applies them to its fields. */
module RollingBuffer {
  import opened Wrappers
  import opened Text
  import opened Seqs

  /** A message id: batch loaders build the string `"<tag>-<ts>"`, the live handler
      stores the number `Date.now()`. */
  datatype MsgId = Num(n: int) | Str(s: string)

  /** One entry of `extractedData`. `timestamp` is kept as the Slack `ts` it is derived from. */
  datatype Message = Message(id: MsgId, timestamp: string, user: string, channel: string, text: string)

  /** Cap applied by every batch load. */
  const BatchCap: nat := 50
  /** Cap applied by the live handler. */
  const LiveCap: nat := 20

  /** `msg.id.startsWith(p)` when it does not throw: only string ids have the method. */
  predicate TaggedWith(m: Message, p: string) {
    m.id.Str? && HasPrefix(m.id.s, p)
  }

  /** Some entry has a numeric id, so calling `startsWith` on it throws. */
  predicate HasNumericId(buf: seq<Message>) {
    exists i :: 0 <= i < |buf| && buf[i].id.Num?
  }

  /** The entries not tagged with `p`, in their original order. */
  function Untagged(buf: seq<Message>, p: string): (r: seq<Message>)
    ensures |r| <= |buf|
    ensures forall m :: m in r <==> m in buf && !TaggedWith(m, p)
    decreases |buf|
  {
    if buf == [] then []
    else if TaggedWith(buf[0], p) then Untagged(buf[1..], p)
    else [buf[0]] + Untagged(buf[1..], p)
  }

  /** Filtering a concatenation filters each part in place: relative order is kept. */
  lemma {:induction false} UntaggedAppend(a: seq<Message>, b: seq<Message>, p: string)
    ensures Untagged(a + b, p) == Untagged(a, p) + Untagged(b, p)
    decreases |a|
  {
    if a != [] {
      assert (a + b)[1..] == a[1..] + b;
      UntaggedAppend(a[1..], b, p);
    } else {
      assert a + b == b;
    }
  }

  /** A buffer holding no entry tagged `p` is left as it is. */
  lemma {:induction false} UntaggedNoop(buf: seq<Message>, p: string)
    requires forall i :: 0 <= i < |buf| ==> !TaggedWith(buf[i], p)
    ensures Untagged(buf, p) == buf
    decreases |buf|
  {
    if buf != [] {
      UntaggedNoop(buf[1..], p);
    }
  }

  /** `buf.filter(msg => !msg.id.startsWith(p))`: fails when the filter meets a numeric id. */
  function StripTag(buf: seq<Message>, p: string): (r: Option<seq<Message>>)
    ensures r.None? <==> HasNumericId(buf)
    ensures r.Some? ==> forall m :: m in r.value <==> m in buf && !TaggedWith(m, p)
  {
    if HasNumericId(buf) then None else Some(Untagged(buf, p))
  }

  /** The replace-by-tag upsert of one batch load (server/slackBot.js:132-140):
      drop the entries tagged `p`, put the reversed fresh batch in front, keep the first 50.
      None when the filter throws, in which case the loader changes nothing. */
  function Upsert(buf: seq<Message>, p: string, batch: seq<Message>): (r: Option<seq<Message>>)
    ensures r.None? <==> HasNumericId(buf)
    ensures r.Some? ==> |r.value| <= BatchCap
  {
    match StripTag(buf, p)
    case None => None
    case Some(rest) => Some(Take(Reverse(batch) + rest, BatchCap))
  }

  /** After an upsert every entry tagged `p` comes from the fresh batch. */
  lemma OnlyFreshTagged(buf: seq<Message>, p: string, batch: seq<Message>)
    requires Upsert(buf, p, batch).Some?
    ensures forall m :: m in Upsert(buf, p, batch).value && TaggedWith(m, p) ==> m in batch
  {
    var rest := Untagged(buf, p);
    var full := Reverse(batch) + rest;
    var r := Upsert(buf, p, batch).value;
    ReverseMembers(batch);
    forall m | m in r && TaggedWith(m, p) ensures m in batch {
      var k :| 0 <= k < |r| && r[k] == m;
      assert full[k] == m;
      if k < |batch| {
        assert m == Reverse(batch)[k];
      } else {
        assert false;
      }
    }
  }

  /** The upsert keeps a prefix of `reverse(batch) ++ rest`: it drops from the tail, never
      the head, and keeps exactly min(50, |batch| + |rest|) entries. */
  lemma TruncatesTail(buf: seq<Message>, p: string, batch: seq<Message>)
    requires !HasNumericId(buf)
    ensures var full := Reverse(batch) + Untagged(buf, p);
            var r := Upsert(buf, p, batch).value;
            |r| == Min(BatchCap, |full|) && r == full[..|r|]
  {
  }

  /** With at most 50 batch messages the whole batch is at the front, in reversed fetch
      order, ahead of everything loaded before. */
  lemma FreshInFront(buf: seq<Message>, p: string, batch: seq<Message>)
    requires !HasNumericId(buf) && |batch| <= BatchCap
    ensures var r := Upsert(buf, p, batch).value;
            |batch| <= |r| && r[..|batch|] == Reverse(batch)
  {
    var full := Reverse(batch) + Untagged(buf, p);
    var r := Upsert(buf, p, batch).value;
    assert r == full[..|r|];
    assert full[..|batch|] == Reverse(batch);
  }

  /** Repeating an upsert with the same batch (all tagged `p`, string ids, at most 50)
      changes nothing further. */
  lemma UpsertIdempotent(buf: seq<Message>, p: string, batch: seq<Message>)
    requires !HasNumericId(buf) && |batch| <= BatchCap
    requires forall i :: 0 <= i < |batch| ==> TaggedWith(batch[i], p)
    ensures var once := Upsert(buf, p, batch).value;
            Upsert(once, p, batch) == Some(once)
  {
    var rest := Untagged(buf, p);
    var rev := Reverse(batch);
    var once := Take(rev + rest, BatchCap);
    var kept := Take(rest, BatchCap - |batch|);
    assert once == rev + kept by {
      assert |rev| == |batch|;
      if |rev + rest| > BatchCap {
        assert once == (rev + rest)[..BatchCap];
        assert (rev + rest)[..BatchCap] == rev + rest[..BatchCap - |batch|];
      }
    }
    forall i | 0 <= i < |rev| ensures TaggedWith(rev[i], p) && rev[i].id.Str? {
      ReverseAt(batch, i);
    }
    assert !HasNumericId(once) by {
      forall i | 0 <= i < |once| ensures !once[i].id.Num? {
        if i >= |rev| {
          assert once[i] == kept[i - |rev|] == rest[i - |rev|];
          assert rest[i - |rev|] in buf;
        }
      }
    }
    UntaggedAppend(rev, kept, p);
    UntaggedNoop(kept, p) by {
      forall i | 0 <= i < |kept| ensures !TaggedWith(kept[i], p) {
        assert kept[i] == rest[i];
        assert rest[i] in rest;
      }
    }
    assert Untagged(rev, p) == [] by {
      EmptyWhenAllTagged(rev, p);
    }
    assert Untagged(once, p) == kept;
    assert Reverse(batch) + kept == once;
  }

  lemma {:induction false} EmptyWhenAllTagged(s: seq<Message>, p: string)
    requires forall i :: 0 <= i < |s| ==> TaggedWith(s[i], p)
    ensures Untagged(s, p) == []
    decreases |s|
  {
    if s != [] {
      EmptyWhenAllTagged(s[1..], p);
    }
  }

  /** A live event that passes the handler's test (server/slackBot.js:27). JavaScript
      truthiness: an empty `botId` or `text` stands for an absent or empty field. */
  datatype Event = Event(channelType: string, botId: string, text: string, ts: string, user: string, channel: string)

  predicate Qualifies(ev: Event) {
    ev.channelType == "channel" && ev.botId == "" && ev.text != ""
  }

  /** The entry the live handler builds; its id is the arrival time in milliseconds. */
  function LiveMessage(ev: Event, nowMs: int): (m: Message)
    ensures m.id == Num(nowMs) && m.channel == ev.channel && m.text == ev.text
    ensures m.user == ev.user && m.timestamp == ev.ts
  {
    Message(Num(nowMs), ev.ts, ev.user, ev.channel, ev.text)
  }

  /** `unshift` then keep the first 20 (server/slackBot.js:37-42). */
  function LivePrepend(buf: seq<Message>, m: Message): (r: seq<Message>)
    ensures 1 <= |r| <= LiveCap && r[0] == m
    ensures r[1..] == buf[..Min(|buf|, LiveCap - 1)]
  {
    Take([m] + buf, LiveCap)
  }

  /** Once a live message is in the buffer every later upsert fails at the prefix test. */
  lemma LiveEntryBlocksUpsert(buf: seq<Message>, ev: Event, nowMs: int, p: string, batch: seq<Message>)
    ensures Upsert(LivePrepend(buf, LiveMessage(ev, nowMs)), p, batch).None?
  {
    var r := LivePrepend(buf, LiveMessage(ev, nowMs));
    assert r[0].id.Num?;
  }

  /** A numeric entry among the first 19 is still kept after the next live message, so the
      fault persists. */
  lemma NumericIdSurvivesPrepend(buf: seq<Message>, m: Message)
    requires exists i :: 0 <= i < |buf| && i < LiveCap - 1 && buf[i].id.Num?
    ensures HasNumericId(LivePrepend(buf, m))
  {
    var i :| 0 <= i < |buf| && i < LiveCap - 1 && buf[i].id.Num?;
    assert LivePrepend(buf, m)[i + 1] == buf[i];
  }
}
