/**
 * twitch.py: fetching the live streams of a category and reconciling them,
 * for one guild, with the messages the bot has posted (`check_streams_once`).
 *
 * HTTP requests and discord.py calls are not performed: their replies are
 * parameters. A Python exception that escapes `check_streams_once` is the
 * outcome `Raised`, with the state left as it was when the exception was
 * thrown.
 */
module Twitch {
  import opened Wrappers
  import opened SettingsData
  import opened BotState
  import opened Helix

  type GameId = string

  /** A Helix JSON reply: its 'data' list, or None when the key is absent. */
  datatype Body<T> = Body(data: Option<seq<T>>)

  /** A request that raised, or the JSON body it returned. */
  datatype Fetch<T> = FetchRaised | Fetched(body: Body<T>)

  /** The value `{'data': []}`. */
  const NoStreams: Body<Stream> := Body(Some([]))

  /** `body.get('data')` is truthy. */
  predicate HasData<T>(body: Body<T>) {
    body.data.Some? && body.data.value != []
  }

  /**
   * get_twitch_streams: `games` is the reply to the category lookup and
   * `streams` the reply to the stream listing for the first game id found.
   * Only a successful lookup followed by a successful listing yields data;
   * an unknown category and any exception both give `{'data': []}`.
   */
  function GetTwitchStreams(games: Fetch<GameId>, streams: Fetch<Stream>): (r: Body<Stream>)
    ensures HasData(r) ==> games.Fetched? && HasData(games.body) && streams.Fetched? && r == streams.body
    ensures games.FetchRaised? || !HasData(games.body) || streams.FetchRaised? ==> r == NoStreams
    ensures games.Fetched? && HasData(games.body) && streams.Fetched? ==> r == streams.body
  {
    if games.Fetched? && HasData(games.body) then
      if streams.Fetched? then streams.body else NoStreams
    else
      NoStreams
  }

  /** What `message.delete()` does: return, or raise NotFound, Forbidden or another HTTP error. */
  datatype DeleteReply = Deleted | DeleteNotFound | DeleteForbidden | DeleteFailed

  /** What `message.edit(...)` does. */
  datatype EditReply = Edited | EditNotFound | EditForbidden | EditFailed

  /**
   * What `channel.send(...)` does: return a message, raise Forbidden, raise
   * some other error, or answer 429, after which the send is tried again.
   */
  datatype SendReply =
    | Sent(message: Handle)
    | SendForbidden
    | SendFailed
    | SendRateLimited(retry: SendReply)

  /** The replies Discord gives during one cycle, per message and per new stream. */
  datatype Replies = Replies(
    delete: Handle -> DeleteReply,
    edit: Handle -> EditReply,
    send: StreamId -> SendReply)

  /** The messages that end up posted in the channel by one send_notification call. */
  function Posted(reply: SendReply): (posted: seq<Handle>)
    ensures |posted| <= 1
  {
    match reply
    case Sent(h) => [h]
    case SendRateLimited(retry) => Posted(retry)
    case _ => []
  }

  /**
   * send_notification as written: the message of the first send, if it
   * succeeded; after a rate limit the retry runs but its result is dropped.
   */
  function SendNotification(reply: SendReply): (r: Option<Handle>)
    ensures r.Some? ==> Posted(reply) == [r.value]
    ensures r.None? <==> !reply.Sent?
  {
    if reply.Sent? then Some(reply.message) else None
  }

  /** A message the bot posts, edits or deletes, with the viewer figures of its embed. */
  datatype Call =
    | Delete(stream: StreamId, message: Handle)
    | Edit(stream: StreamId, message: Handle, viewers: nat, maxViewers: nat)
    | Send(stream: StreamId, viewers: nat, maxViewers: nat)

  function Max(a: nat, b: nat): nat {
    if b > a then b else a
  }

  // ---------------------------------------------------------------------
  // Deleting the messages of streams that went offline (twitch.py:102-110)
  // ---------------------------------------------------------------------

  /** Deleting this entry's message raises: the entry has no 'message' key, or the delete fails other than NotFound. */
  predicate Undeletable(e: Entry, rp: Replies) {
    e.message.None? || rp.delete(e.message.value).DeleteForbidden? || rp.delete(e.message.value).DeleteFailed?
  }

  /** Some offline entry cannot be deleted, so the deletion loop raises. */
  predicate DeletionRaises(m: GuildStreams, ids: set<StreamId>, rp: Replies) {
    exists k :: k in m && k !in ids && Undeletable(m[k], rp)
  }

  /** The delete calls issued: each for a distinct offline entry, on that entry's message. */
  predicate DeletionCalls(m: GuildStreams, ids: set<StreamId>, deletions: seq<Call>) {
    && (forall c :: c in deletions ==>
          c.Delete? && c.stream in m && c.stream !in ids && m[c.stream].message == Some(c.message))
    && (forall i, j :: 0 <= i < j < |deletions| ==> deletions[i].stream != deletions[j].stream)
  }

  /** Appending the delete of one more offline entry keeps the calls distinct. */
  lemma DeletionCallsAppend(m: GuildStreams, ids: set<StreamId>, deletions: seq<Call>, k: StreamId)
    requires DeletionCalls(m, ids, deletions)
    requires k in m && k !in ids && m[k].message.Some?
    requires k !in (set c | c in deletions :: c.stream)
    ensures var more := deletions + [Delete(k, m[k].message.value)];
      && DeletionCalls(m, ids, more)
      && (set c | c in more :: c.stream) == (set c | c in deletions :: c.stream) + {k}
  {
  }

  /** Removing only deletable offline entries keeps the live ones and every undeletable one. */
  lemma RemovedDeletable(m: GuildStreams, ids: set<StreamId>, rp: Replies, removed: set<StreamId>)
    requires removed <= m.Keys - ids
    requires forall k :: k in removed ==> !Undeletable(m[k], rp)
    ensures Live(m, ids).Keys <= (m - removed).Keys <= m.Keys
    ensures forall k :: k in m - removed ==> (m - removed)[k] == m[k]
    ensures forall k :: k in m && Undeletable(m[k], rp) ==> k in m - removed
  {
  }

  /** The streams among `deletions` whose delete went through: done or NotFound. */
  function DeletedStreams(m: GuildStreams, deletions: seq<Call>, rp: Replies): set<StreamId> {
    set c | c in deletions && c.stream in m && !Undeletable(m[c.stream], rp) :: c.stream
  }

  /** One more delete call adds its stream exactly when that delete went through. */
  lemma DeletedStreamsAppend(m: GuildStreams, deletions: seq<Call>, rp: Replies, c: Call)
    ensures DeletedStreams(m, deletions + [c], rp) ==
      DeletedStreams(m, deletions, rp) + (if c.stream in m && !Undeletable(m[c.stream], rp) then {c.stream} else {})
  {
    var more := deletions + [c];
    assert forall d :: d in more <==> d in deletions || d == c;
  }

  // ---------------------------------------------------------------------
  // Editing or posting one message per live stream (twitch.py:112-176)
  // ---------------------------------------------------------------------

  /** The guild's streams after part of a cycle, the calls made, and whether an exception escaped. */
  datatype Progress = Progress(streams: GuildStreams, calls: seq<Call>, raised: bool)

  /** One iteration of the loop over `streams['data']`. */
  function Step(m: GuildStreams, s: Stream, rp: Replies): Progress {
    if s.id in m then
      if m[s.id].message.None? then
        Progress(m, [], true)  // KeyError on ['message']
      else
        var h := m[s.id].message.value;
        var e := Entry(Max(m[s.id].maxViewers, s.viewerCount), Some(h));
        Progress(m[s.id := e], [Edit(s.id, h, s.viewerCount, e.maxViewers)], rp.edit(h).EditFailed?)
    else
      var message := SendNotification(rp.send(s.id));
      Progress(m[s.id := Entry(s.viewerCount, message)], [Send(s.id, s.viewerCount, s.viewerCount)], false)
  }

  /** The loop over `streams['data']`, stopping at the first exception. */
  function Process(m: GuildStreams, data: seq<Stream>, rp: Replies): Progress
    decreases |data|
  {
    if data == [] then
      Progress(m, [], false)
    else
      var p := Step(m, data[0], rp);
      if p.raised then p
      else
        var q := Process(p.streams, data[1..], rp);
        Progress(q.streams, p.calls + q.calls, q.raised)
  }

  /** The largest viewer count seen for stream `k`, starting from `best`. */
  function Peak(data: seq<Stream>, k: StreamId, best: nat): nat
    decreases |data|
  {
    if data == [] then best
    else Peak(data[1..], k, if data[0].id == k then Max(best, data[0].viewerCount) else best)
  }

  /** The peak is at least the start and every viewer count of `k`, and is one of them. */
  lemma {:induction false} PeakIsMaximum(data: seq<Stream>, k: StreamId, best: nat)
    ensures Peak(data, k, best) >= best
    ensures forall i :: 0 <= i < |data| && data[i].id == k ==> Peak(data, k, best) >= data[i].viewerCount
    ensures Peak(data, k, best) == best ||
            exists i :: 0 <= i < |data| && data[i].id == k && Peak(data, k, best) == data[i].viewerCount
  {
    if data != [] {
      var next := if data[0].id == k then Max(best, data[0].viewerCount) else best;
      PeakIsMaximum(data[1..], k, next);
      var tail := data[1..];
      forall i | 0 <= i < |data| && data[i].id == k ensures Peak(data, k, best) >= data[i].viewerCount {
        if i > 0 { assert tail[i - 1] == data[i]; }
      }
      if Peak(tail, k, next) != next {
        var j :| 0 <= j < |tail| && tail[j].id == k && Peak(tail, k, next) == tail[j].viewerCount;
        assert data[j + 1] == tail[j];
      }
    }
  }

  /** The maximum a stream starts from: its tracked maximum, or 0 for a new stream. */
  function Base(m: GuildStreams, k: StreamId): nat {
    if k in m then m[k].maxViewers else 0
  }

  /** A tracked entry is never dropped by the update loop, keeps its message, and its maximum only grows. */
  lemma {:induction false} ProcessKeepsTracked(m: GuildStreams, data: seq<Stream>, rp: Replies, k: StreamId)
    requires k in m
    ensures var p := Process(m, data, rp);
      k in p.streams && p.streams[k].message == m[k].message && p.streams[k].maxViewers >= m[k].maxViewers
    decreases |data|
  {
    if data != [] {
      var p := Step(m, data[0], rp);
      if !p.raised {
        ProcessKeepsTracked(p.streams, data[1..], rp, k);
      }
    }
  }

  /** An entry whose stream is not in the snapshot is left exactly as it was. */
  lemma {:induction false} ProcessUntouched(m: GuildStreams, data: seq<Stream>, rp: Replies, k: StreamId)
    requires k !in StreamIds(data)
    ensures var p := Process(m, data, rp);
      (k in p.streams <==> k in m) && (k in m ==> p.streams[k] == m[k])
    decreases |data|
  {
    if data != [] {
      StreamIdsCons(data);
      var p := Step(m, data[0], rp);
      if !p.raised {
        ProcessUntouched(p.streams, data[1..], rp, k);
      }
    }
  }

  /** The update loop only adds entries for live streams; when it completes, it has one for each. */
  lemma {:induction false} ProcessKeys(m: GuildStreams, data: seq<Stream>, rp: Replies)
    ensures var p := Process(m, data, rp);
      m.Keys <= p.streams.Keys <= m.Keys + StreamIds(data) &&
      (!p.raised ==> p.streams.Keys == m.Keys + StreamIds(data))
    decreases |data|
  {
    if data != [] {
      StreamIdsCons(data);
      var p := Step(m, data[0], rp);
      if !p.raised {
        ProcessKeys(p.streams, data[1..], rp);
      }
    }
  }

  /**
   * A stream that was not tracked gets a message only from its send: the
   * entry holds exactly what send_notification returned, None included.
   */
  lemma {:induction false} ProcessNewMessage(m: GuildStreams, data: seq<Stream>, rp: Replies, k: StreamId)
    requires k !in m
    ensures var p := Process(m, data, rp);
      k in p.streams ==> p.streams[k].message == SendNotification(rp.send(k))
    decreases |data|
  {
    if data != [] {
      var p := Step(m, data[0], rp);
      if !p.raised {
        if k in p.streams {
          ProcessKeepsTracked(p.streams, data[1..], rp, k);
        } else {
          ProcessNewMessage(p.streams, data[1..], rp, k);
        }
      }
    }
  }

  /** When the loop completes, every live stream's maximum is the peak of its viewer counts. */
  lemma {:induction false} ProcessMaxIsPeak(m: GuildStreams, data: seq<Stream>, rp: Replies, k: StreamId)
    requires !Process(m, data, rp).raised
    requires k in m || k in StreamIds(data)
    ensures var p := Process(m, data, rp);
      k in p.streams && p.streams[k].maxViewers == Peak(data, k, Base(m, k))
    decreases |data|
  {
    if data != [] {
      StreamIdsCons(data);
      var p := Step(m, data[0], rp);
      assert Base(p.streams, k) == if data[0].id == k then Max(Base(m, k), data[0].viewerCount) else Base(m, k);
      ProcessMaxIsPeak(p.streams, data[1..], rp, k);
    }
  }

  /**
   * The update loop never deletes, posts only for streams that were not
   * tracked (showing their viewers as the maximum), and never shows a
   * maximum below the current viewers.
   */
  lemma {:induction false} ProcessCalls(m: GuildStreams, data: seq<Stream>, rp: Replies)
    ensures forall c :: c in Process(m, data, rp).calls ==>
      && !c.Delete?
      && (c.Send? ==> c.stream !in m && c.maxViewers == c.viewers)
      && (c.Edit? ==> c.maxViewers >= c.viewers)
    decreases |data|
  {
    if data != [] {
      var p := Step(m, data[0], rp);
      assert m.Keys <= p.streams.Keys;
      if !p.raised {
        ProcessCalls(p.streams, data[1..], rp);
        var q := Process(p.streams, data[1..], rp);
        assert forall c :: c in p.calls + q.calls ==> c in p.calls || c in q.calls;
      }
    }
  }

  /** No two sends in `calls` are for the same stream. */
  predicate SendsDistinct(calls: seq<Call>) {
    forall i, j :: 0 <= i < j < |calls| && calls[i].Send? && calls[j].Send? ==> calls[i].stream != calls[j].stream
  }

  /** A snapshot that contains a stream twice edits it the second time rather than posting it again. */
  lemma {:induction false} ProcessSendsOncePerStream(m: GuildStreams, data: seq<Stream>, rp: Replies)
    ensures SendsDistinct(Process(m, data, rp).calls)
    decreases |data|
  {
    if data != [] {
      var p := Step(m, data[0], rp);
      if !p.raised {
        ProcessSendsOncePerStream(p.streams, data[1..], rp);
        ProcessCalls(p.streams, data[1..], rp);
        var q := Process(p.streams, data[1..], rp);
        var calls := p.calls + q.calls;
        assert SendsDistinct(q.calls);
        forall i, j | 0 <= i < j < |calls| && calls[i].Send? && calls[j].Send?
          ensures calls[i].stream != calls[j].stream
        {
          if i < |p.calls| {
            assert |p.calls| == 1 && p.calls[0].stream == data[0].id;
            assert data[0].id in p.streams;
            assert calls[i] == p.calls[0];
            assert calls[j] == q.calls[j - |p.calls|];
            assert calls[j] in q.calls;
            assert calls[j].stream !in p.streams;
          } else {
            var i', j' := i - |p.calls|, j - |p.calls|;
            assert calls[i] == q.calls[i'] && calls[j] == q.calls[j'];
            assert 0 <= i' < j' < |q.calls| && q.calls[i'].Send? && q.calls[j'].Send?;
          }
        }
      }
    }
  }

  // ---------------------------------------------------------------------
  // One call of check_streams_once (twitch.py:79-176)
  // ---------------------------------------------------------------------

  datatype Outcome = Skipped | Completed | Raised

  /**
   * The guild has non-empty settings with a truthy channel id for a
   * channel the bot can see, and the category name is truthy.
   */
  predicate Configured(settings: Settings, guildId: GuildId, categoryName: Scalar, channels: set<int>) {
    var gs := GuildSettingsOf(settings, guildId);
    && gs.Some? && gs.value != map[]
    && Truthy(Get(gs.value, "channel_id"))
    && Truthy(categoryName)
    && ChannelFound(channels, Get(gs.value, "channel_id"))
  }

  /**
   * The guild's streams `m` and the calls of a cycle that reached the
   * deletion loop, from the streams `m0` before it and the snapshot `data`.
   */
  ghost predicate CycleResult(m0: GuildStreams, data: seq<Stream>, rp: Replies,
                              outcome: Outcome, deletions: seq<Call>, updates: seq<Call>, m: GuildStreams)
  {
    var ids := StreamIds(data);
    && DeletionCalls(m0, ids, deletions)
    && if DeletionRaises(m0, ids, rp) then
         && outcome == Raised && updates == []
         && m == m0 - DeletedStreams(m0, deletions, rp)
         && Live(m0, ids).Keys <= m.Keys <= m0.Keys
         && (forall k :: k in m ==> m[k] == m0[k])
         && (forall k :: k in m0 && Undeletable(m0[k], rp) ==> k in m)
       else
         var p := Process(Live(m0, ids), data, rp);
         && (set c | c in deletions :: c.stream) == m0.Keys - ids
         && m == p.streams && updates == p.calls
         && outcome == (if p.raised then Raised else Completed)
  }

  /**
   * The loop over `list(bot.reported_streams[guild_id].items())`: the
   * message of every entry whose stream is not in `ids` is deleted, and the
   * entry with it. The loop raises on an entry without 'message' and on a
   * delete that fails other than with NotFound.
   */
  method DeleteOffline(bot: Bot, guildId: GuildId, ids: set<StreamId>, rp: Replies)
    returns (raised: bool, deletions: seq<Call>)
    requires guildId in bot.reportedStreams
    modifies bot
    ensures guildId in bot.reportedStreams
    ensures bot.reportedStreams - {guildId} == old(bot.reportedStreams) - {guildId}
    ensures DeletionCalls(old(bot.reportedStreams[guildId]), ids, deletions)
    ensures raised == DeletionRaises(old(bot.reportedStreams[guildId]), ids, rp)
    ensures var m0 := old(bot.reportedStreams[guildId]);
      bot.reportedStreams[guildId] == m0 - DeletedStreams(m0, deletions, rp)
    ensures raised ==>
      var m0, m := old(bot.reportedStreams[guildId]), bot.reportedStreams[guildId];
      && Live(m0, ids).Keys <= m.Keys <= m0.Keys
      && (forall k :: k in m ==> m[k] == m0[k])
      && (forall k :: k in m0 && Undeletable(m0[k], rp) ==> k in m)
    ensures !raised ==>
      var m0 := old(bot.reportedStreams[guildId]);
      && bot.reportedStreams[guildId] == Live(m0, ids)
      && (set c | c in deletions :: c.stream) == m0.Keys - ids
  {
    deletions := [];
    var items := bot.reportedStreams[guildId];
    ghost var m0 := items;
    var pending := items.Keys;
    ghost var visited: set<StreamId> := {};
    while pending != {}
      invariant pending + visited == m0.Keys && pending !! visited
      invariant guildId in bot.reportedStreams
      invariant bot.reportedStreams - {guildId} == old(bot.reportedStreams) - {guildId}
      invariant bot.reportedStreams[guildId] == m0 - (visited - ids)
      invariant forall k :: k in visited && k !in ids ==> !Undeletable(m0[k], rp)
      invariant DeletionCalls(m0, ids, deletions)
      invariant (set c | c in deletions :: c.stream) == visited - ids
      invariant DeletedStreams(m0, deletions, rp) == visited - ids
      decreases pending
    {
      var k :| k in pending;
      if k !in ids {
        var e := items[k];
        if e.message.None? {
          RemovedDeletable(m0, ids, rp, visited - ids);
          assert Undeletable(m0[k], rp);
          return true, deletions;  // KeyError on ['message']
        }
        assert k !in visited - ids;
        assert k !in (set c | c in deletions :: c.stream);
        DeletionCallsAppend(m0, ids, deletions, k);
        DeletedStreamsAppend(m0, deletions, rp, Delete(k, e.message.value));
        deletions := deletions + [Delete(k, e.message.value)];
        var reply := rp.delete(e.message.value);
        if reply.DeleteForbidden? || reply.DeleteFailed? {
          RemovedDeletable(m0, ids, rp, visited - ids);
          assert Undeletable(m0[k], rp);
          return true, deletions;
        }
        bot.reportedStreams := bot.reportedStreams[guildId := bot.reportedStreams[guildId] - {k}];
      }
      pending := pending - {k};
      visited := visited + {k};
    }
    assert bot.reportedStreams[guildId] == Live(m0, ids);
    raised := false;
  }

  /** One iteration of the loop over `streams['data']`, on the bot's state in place. */
  method UpdateStream(bot: Bot, guildId: GuildId, s: Stream, rp: Replies)
    returns (raised: bool, calls: seq<Call>)
    requires guildId in bot.reportedStreams
    modifies bot
    ensures guildId in bot.reportedStreams
    ensures bot.reportedStreams - {guildId} == old(bot.reportedStreams) - {guildId}
    ensures var p := Step(old(bot.reportedStreams[guildId]), s, rp);
      bot.reportedStreams[guildId] == p.streams && calls == p.calls && raised == p.raised
  {
    var cur := bot.reportedStreams[guildId];
    if s.id in cur {
      if cur[s.id].message.None? {
        return true, [];  // KeyError on ['message']
      }
      var message := cur[s.id].message.value;
      var maxViewers := cur[s.id].maxViewers;
      if s.viewerCount > maxViewers {
        bot.reportedStreams := bot.reportedStreams[guildId := cur[s.id := Entry(s.viewerCount, Some(message))]];
      } else {
        assert cur[s.id := Entry(maxViewers, Some(message))] == cur;
      }
      calls := [Edit(s.id, message, s.viewerCount, bot.reportedStreams[guildId][s.id].maxViewers)];
      var reply := rp.edit(message);
      raised := reply.EditFailed?;
    } else {
      bot.reportedStreams := bot.reportedStreams[guildId := cur[s.id := Entry(s.viewerCount, None)]];
      calls := [Send(s.id, s.viewerCount, s.viewerCount)];
      var message := SendNotification(rp.send(s.id));
      if message.Some? {
        bot.reportedStreams :=
          bot.reportedStreams[guildId := bot.reportedStreams[guildId][s.id := Entry(s.viewerCount, message)]];
      }
      raised := false;
    }
  }

  /**
   * The loop over `streams['data']`: a tracked stream has its maximum
   * raised and its message edited, a new stream gets an entry and a send.
   */
  method UpdateStreams(bot: Bot, guildId: GuildId, data: seq<Stream>, rp: Replies)
    returns (raised: bool, updates: seq<Call>)
    requires guildId in bot.reportedStreams
    modifies bot
    ensures guildId in bot.reportedStreams
    ensures bot.reportedStreams - {guildId} == old(bot.reportedStreams) - {guildId}
    ensures var p := Process(old(bot.reportedStreams[guildId]), data, rp);
      bot.reportedStreams[guildId] == p.streams && updates == p.calls && raised == p.raised
  {
    updates := [];
    ghost var target := Process(bot.reportedStreams[guildId], data, rp);
    var i := 0;
    while i < |data|
      invariant 0 <= i <= |data|
      invariant guildId in bot.reportedStreams
      invariant bot.reportedStreams - {guildId} == old(bot.reportedStreams) - {guildId}
      invariant var q := Process(bot.reportedStreams[guildId], data[i..], rp);
        q.streams == target.streams && updates + q.calls == target.calls && q.raised == target.raised
    {
      assert data[i..][0] == data[i] && data[i..][1..] == data[i + 1..];
      var stepRaised, calls := UpdateStream(bot, guildId, data[i], rp);
      updates := updates + calls;
      if stepRaised {
        return true, updates;
      }
      i := i + 1;
    }
    raised := false;
  }

  /**
   * check_streams_once. `channels` are the channel ids `bot.get_channel`
   * finds; `games` and `live` are the replies get_twitch_streams receives.
   * The deletion loop's calls come back in `deletions`, the update loop's
   * in `updates`: all deletions are issued before any edit or send.
   */
  method CheckStreamsOnce(bot: Bot, settings: Settings, guildId: GuildId, categoryName: Scalar,
                          channels: set<int>, games: Fetch<GameId>, live: Fetch<Stream>, rp: Replies)
    returns (outcome: Outcome, deletions: seq<Call>, updates: seq<Call>)
    modifies bot
    ensures bot.reportedStreams - {guildId} == old(bot.reportedStreams) - {guildId}
    ensures outcome.Skipped? <==>
      !Configured(settings, guildId, categoryName, channels) || !HasData(GetTwitchStreams(games, live))
    ensures outcome.Skipped? ==> bot.reportedStreams == old(bot.reportedStreams) && deletions == [] && updates == []
    ensures !outcome.Skipped? ==>
      && guildId in bot.reportedStreams
      && CycleResult(old(StreamsOf(bot.reportedStreams, guildId)), GetTwitchStreams(games, live).data.value,
                     rp, outcome, deletions, updates, bot.reportedStreams[guildId])
  {
    deletions, updates := [], [];
    var gs := GuildSettingsOf(settings, guildId);
    if gs.None? || gs.value == map[] {
      return Skipped, deletions, updates;
    }
    var channelId := Get(gs.value, "channel_id");
    if !Truthy(channelId) || !Truthy(categoryName) {
      return Skipped, deletions, updates;
    }
    if !ChannelFound(channels, channelId) {
      return Skipped, deletions, updates;
    }
    var streams := GetTwitchStreams(games, live);
    if !HasData(streams) {
      return Skipped, deletions, updates;
    }
    if guildId !in bot.reportedStreams {
      bot.reportedStreams := bot.reportedStreams[guildId := map[]];
    }
    var data := streams.data.value;
    var ids := set i | 0 <= i < |data| :: data[i].id;
    assert ids == StreamIds(data);
    var raised;
    raised, deletions := DeleteOffline(bot, guildId, ids, rp);
    if raised {
      return Raised, deletions, updates;
    }
    raised, updates := UpdateStreams(bot, guildId, data, rp);
    outcome := if raised then Raised else Completed;
  }

  // ---------------------------------------------------------------------
  // What a cycle means for the tracked streams
  // ---------------------------------------------------------------------

  /** A cycle that completes tracks exactly the streams of the snapshot. */
  lemma CycleTracksExactlyLive(m0: GuildStreams, data: seq<Stream>, rp: Replies)
    requires !DeletionRaises(m0, StreamIds(data), rp)
    requires !Process(Live(m0, StreamIds(data)), data, rp).raised
    ensures Process(Live(m0, StreamIds(data)), data, rp).streams.Keys == StreamIds(data)
  {
    ProcessKeys(Live(m0, StreamIds(data)), data, rp);
  }

  /**
   * The first time a tracked stream comes up in a loop that completes, its
   * own message is edited to show the current viewers and the maximum
   * stored for it at that step: the larger of the old maximum and them.
   */
  lemma {:induction false} ProcessEditsTracked(m: GuildStreams, data: seq<Stream>, rp: Replies, k: StreamId, j: nat)
    requires !Process(m, data, rp).raised
    requires k in m && j < |data| && data[j].id == k
    requires forall i :: 0 <= i < j ==> data[i].id != k
    ensures m[k].message.Some?
    ensures Edit(k, m[k].message.value, data[j].viewerCount, Max(m[k].maxViewers, data[j].viewerCount))
              in Process(m, data, rp).calls
    decreases |data|
  {
    var p := Step(m, data[0], rp);
    var q := Process(p.streams, data[1..], rp);
    if j == 0 {
      assert p.calls[0] in p.calls + q.calls;
    } else {
      assert data[0].id != k;
      assert k in p.streams && p.streams[k] == m[k];
      forall i | 0 <= i < j - 1 ensures data[1..][i].id != k {
        assert data[1..][i] == data[i + 1];
      }
      ProcessEditsTracked(p.streams, data[1..], rp, k, j - 1);
      var c := Edit(k, m[k].message.value, data[j].viewerCount, Max(m[k].maxViewers, data[j].viewerCount));
      assert c in q.calls;
      assert c in p.calls + q.calls;
    }
  }

  /**
   * Across a cycle that completes, a stream that stays live keeps its
   * message, its maximum becomes the larger of the old maximum and the new
   * viewer count, and its message is edited to show both figures.
   */
  lemma CycleRatchetsMax(m0: GuildStreams, data: seq<Stream>, rp: Replies, k: StreamId, j: nat)
    requires !Process(Live(m0, StreamIds(data)), data, rp).raised
    requires k in m0 && j < |data| && data[j].id == k
    requires forall i :: 0 <= i < |data| && i != j ==> data[i].id != k
    ensures var p := Process(Live(m0, StreamIds(data)), data, rp);
      && k in p.streams && p.streams[k].message == m0[k].message
      && p.streams[k].maxViewers == Max(m0[k].maxViewers, data[j].viewerCount)
      && m0[k].message.Some?
      && Edit(k, m0[k].message.value, data[j].viewerCount, Max(m0[k].maxViewers, data[j].viewerCount)) in p.calls
  {
    var ids := StreamIds(data);
    assert k in ids;
    var m := Live(m0, ids);
    ProcessMaxIsPeak(m, data, rp, k);
    ProcessKeepsTracked(m, data, rp, k);
    PeakIsMaximum(data, k, m0[k].maxViewers);
    ProcessEditsTracked(m, data, rp, k, j);
  }

  /**
   * Two cycles for one stream: first it is posted with 10 viewers, then its
   * message is edited to show 25 viewers and a maximum of 25.
   */
  lemma TwoCyclesOfOneStream(rp: Replies)
    requires rp.send("s1") == Sent(7) && rp.edit(7) == Edited
    ensures var first := Process(map[], [Stream("s1", 10)], rp);
      && first == Progress(map["s1" := Entry(10, Some(7))], [Send("s1", 10, 10)], false)
      && Process(Live(first.streams, StreamIds([Stream("s1", 25)])), [Stream("s1", 25)], rp) ==
           Progress(map["s1" := Entry(25, Some(7))], [Edit("s1", 7, 25, 25)], false)
  {
    assert [Stream("s1", 25)][0].id == "s1";
    assert StreamIds([Stream("s1", 25)]) == {"s1"};
    assert Live(map["s1" := Entry(10, Some(7))], {"s1"}) == map["s1" := Entry(10, Some(7))];
  }

  /**
   * A delete answered with NotFound removes its entry even when the
   * deletion loop raises later, here on an entry without a message.
   */
  lemma NotFoundBeforeKeyError(rp: Replies, outcome: Outcome, deletions: seq<Call>, updates: seq<Call>, m: GuildStreams)
    requires rp.delete(1) == DeleteNotFound
    requires CycleResult(map["A" := Entry(0, Some(1)), "B" := Entry(0, None)], [Stream("C", 5)], rp,
                         outcome, deletions, updates, m)
    requires Delete("A", 1) in deletions
    ensures outcome == Raised && m == map["B" := Entry(0, None)]
  {
    var m0 := map["A" := Entry(0, Some(1)), "B" := Entry(0, None)];
    assert [Stream("C", 5)][0].id == "C";
    assert StreamIds([Stream("C", 5)]) == {"C"};
    assert Undeletable(m0["B"], rp);
    assert DeletionRaises(m0, {"C"}, rp);
    assert "A" in DeletedStreams(m0, deletions, rp);
    assert DeletedStreams(m0, deletions, rp) == {"A"};
  }

  // ---------------------------------------------------------------------
  // An entry without a message stalls its guild
  // ---------------------------------------------------------------------

  /**
   * Once a send has failed, the entry has no message, and every later cycle
   * that gets data raises: in the deletion loop when the stream has ended,
   * in the update loop while it is live, and the entry survives both.
   */
  lemma {:induction false} MessagelessEntryRaises(m: GuildStreams, data: seq<Stream>, rp: Replies, k: StreamId)
    requires k in m && m[k].message.None? && k in StreamIds(data)
    ensures var p := Process(m, data, rp);
      p.raised && k in p.streams && p.streams[k].message.None?
    decreases |data|
  {
    StreamIdsCons(data);
    if data[0].id != k {
      var p := Step(m, data[0], rp);
      if !p.raised {
        MessagelessEntryRaises(p.streams, data[1..], rp, k);
      }
    }
  }

  /**
   * The stall in terms of whole cycles: a cycle that reaches the deletion
   * loop raises and leaves the entry tracked, still without a message, so
   * the next such cycle raises again.
   */
  lemma MessagelessEntryStallsGuild(m0: GuildStreams, data: seq<Stream>, rp: Replies,
                                    outcome: Outcome, deletions: seq<Call>, updates: seq<Call>, m: GuildStreams,
                                    k: StreamId)
    requires k in m0 && m0[k].message.None?
    requires CycleResult(m0, data, rp, outcome, deletions, updates, m)
    ensures outcome == Raised && k in m && m[k].message.None?
  {
    var ids := StreamIds(data);
    if k !in ids {
      assert Undeletable(m0[k], rp);
      assert DeletionRaises(m0, ids, rp);
    } else if !DeletionRaises(m0, ids, rp) {
      MessagelessEntryRaises(Live(m0, ids), data, rp, k);
    } else {
      assert k in Live(m0, ids);
    }
  }

  /** A concrete instance: a forbidden first send, then the same stream still live. */
  lemma ForbiddenSendThenKeyError(rp: Replies)
    requires rp.send("s1") == SendForbidden
    ensures var first := Process(map[], [Stream("s1", 10)], rp);
      && !first.raised
      && first.streams == map["s1" := Entry(10, None)]
      && Process(Live(first.streams, {"s1"}), [Stream("s1", 25)], rp).raised
  {
    assert [Stream("s1", 25)][0].id == "s1";
    assert StreamIds([Stream("s1", 25)]) == {"s1"};
    assert Live(map["s1" := Entry(10, None)], {"s1"}) == map["s1" := Entry(10, None)];
  }

  /**
   * A rate-limited send whose retry succeeds posts a message that
   * send_notification does not return, so nothing tracks it.
   */
  lemma RetryMessageIsLost(h: Handle)
    ensures Posted(SendRateLimited(Sent(h))) == [h]
    ensures SendNotification(SendRateLimited(Sent(h))) == None
  {
  }

  // ---------------------------------------------------------------------
  // The intended behaviour: return the retry's message, track only sent messages
  // ---------------------------------------------------------------------

  /** send_notification returning the result of its retry: exactly the message that was posted. */
  function SendNotificationIntended(reply: SendReply): (r: Option<Handle>)
    ensures r.None? <==> Posted(reply) == []
    ensures r.Some? ==> Posted(reply) == [r.value]
  {
    match reply
    case Sent(h) => Some(h)
    case SendRateLimited(retry) => SendNotificationIntended(retry)
    case _ => None
  }

  /** Every tracked entry holds a message. */
  predicate AllHaveMessages(m: GuildStreams) {
    forall k :: k in m ==> m[k].message.Some?
  }

  /** An update step that creates an entry only once its message is known. */
  function StepIntended(m: GuildStreams, s: Stream, rp: Replies): Progress {
    if s.id in m then Step(m, s, rp)
    else
      var message := SendNotificationIntended(rp.send(s.id));
      var m' := if message.Some? then m[s.id := Entry(s.viewerCount, message)] else m;
      Progress(m', [Send(s.id, s.viewerCount, s.viewerCount)], false)
  }

  function ProcessIntended(m: GuildStreams, data: seq<Stream>, rp: Replies): Progress
    decreases |data|
  {
    if data == [] then
      Progress(m, [], false)
    else
      var p := StepIntended(m, data[0], rp);
      if p.raised then p
      else
        var q := ProcessIntended(p.streams, data[1..], rp);
        Progress(q.streams, p.calls + q.calls, q.raised)
  }

  /**
   * With the intended update loop every entry keeps a message, so the
   * KeyError cannot happen: the loop raises only on an edit the code does
   * not catch, and the deletion loop only on a delete it does not catch.
   */
  lemma {:induction false} IntendedKeepsMessages(m: GuildStreams, data: seq<Stream>, rp: Replies)
    requires AllHaveMessages(m)
    ensures var p := ProcessIntended(m, data, rp);
      && AllHaveMessages(p.streams)
      && (p.raised ==> exists c :: c in p.calls && c.Edit? && rp.edit(c.message).EditFailed?)
    decreases |data|
  {
    if data != [] {
      var p := StepIntended(m, data[0], rp);
      if !p.raised {
        IntendedKeepsMessages(p.streams, data[1..], rp);
        var q := ProcessIntended(p.streams, data[1..], rp);
        if q.raised {
          var c :| c in q.calls && c.Edit? && rp.edit(c.message).EditFailed?;
          assert c in p.calls + q.calls;
        }
      } else {
        assert p.calls[0] in p.calls;
      }
    }
  }

  /** With every entry holding a message, the deletion loop raises only on a Forbidden or failed delete. */
  lemma IntendedDeletionRaisesOnlyOnDelete(m: GuildStreams, ids: set<StreamId>, rp: Replies)
    requires AllHaveMessages(m)
    ensures DeletionRaises(m, ids, rp) <==>
      exists k :: k in m && k !in ids && (rp.delete(m[k].message.value).DeleteForbidden? ||
                                          rp.delete(m[k].message.value).DeleteFailed?)
  {
  }
}
