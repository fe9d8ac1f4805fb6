/**
 * sinon.py: the earlier single-channel bot. Its `on_ready` loops forever;
 * one pass of that loop deletes the messages of streams that went offline
 * and posts one message per new stream, keeping the module-level
 * `reported_streams` (stream id to message id) up to date.
 *
 * The Twitch request and the discord.py calls are not performed: their
 * results are parameters. An exception caught by the loop's `except` is
 * the outcome `Raised`, with the state left as it was when it was thrown.
 */
module Sinon {
  import opened Wrappers
  import opened Helix

  type MessageId = nat

  /** get_twitch_streams of this version raises on any failure; otherwise its reply's 'data', None if absent. */
  datatype Fetch = FetchRaised | Fetched(data: Option<seq<Stream>>)

  /** `channel.fetch_message(...)` then `msg.delete()`: done, NotFound from either, or another exception. */
  datatype DeleteReply = Deleted | DeleteNotFound | DeleteRaised

  /** The replies Discord gives in one pass; a send of None is a `channel.send` that raised. */
  datatype Replies = Replies(delete: MessageId -> DeleteReply, send: StreamId -> Option<MessageId>)

  /** A message the bot deletes or posts. */
  datatype Call = Delete(stream: StreamId, message: MessageId) | Send(stream: StreamId, viewers: nat)

  datatype Outcome = Completed | Raised

  /** Some offline stream's delete raises, which ends the pass. */
  predicate DeletionRaises(m: map<StreamId, MessageId>, ids: set<StreamId>, rp: Replies) {
    exists k :: k in m && k !in ids && rp.delete(m[k]).DeleteRaised?
  }

  /** The delete calls issued: each for a distinct offline stream, on its message id. */
  predicate DeletionCalls(m: map<StreamId, MessageId>, ids: set<StreamId>, deletions: seq<Call>) {
    && (forall c :: c in deletions ==> c.Delete? && c.stream in m && c.stream !in ids && m[c.stream] == c.message)
    && (forall i, j :: 0 <= i < j < |deletions| ==> deletions[i].stream != deletions[j].stream)
  }

  /** Appending the delete of one more offline stream keeps the calls distinct. */
  lemma DeletionCallsAppend(m: map<StreamId, MessageId>, ids: set<StreamId>, deletions: seq<Call>, k: StreamId)
    requires DeletionCalls(m, ids, deletions)
    requires k in m && k !in ids
    requires k !in (set c | c in deletions :: c.stream)
    ensures var more := deletions + [Delete(k, m[k])];
      && DeletionCalls(m, ids, more)
      && (set c | c in more :: c.stream) == (set c | c in deletions :: c.stream) + {k}
  {
  }

  /** Popping offline entries, the last of them with a failing delete, keeps the live ones. */
  lemma PoppedBeforeDelete(m: map<StreamId, MessageId>, ids: set<StreamId>, popped: set<StreamId>, k: StreamId)
    requires popped <= m.Keys - ids && k in popped
    ensures Live(m, ids).Keys <= (m - popped).Keys <= m.Keys
    ensures forall j :: j in m - popped ==> (m - popped)[j] == m[j]
    ensures k in m && k !in ids && k !in m - popped
  {
  }

  /** The record after part of a pass, the sends made, and whether an exception escaped. */
  datatype Progress = Progress(streams: map<StreamId, MessageId>, sends: seq<Call>, raised: bool)

  /** The loop over `current_streams['data']`: post for every stream not yet reported. */
  function Report(m: map<StreamId, MessageId>, data: seq<Stream>, rp: Replies): Progress
    decreases |data|
  {
    if data == [] then
      Progress(m, [], false)
    else
      var s := data[0];
      if s.id in m then
        Report(m, data[1..], rp)
      else
        var call := Send(s.id, s.viewerCount);
        match rp.send(s.id)
        case None => Progress(m, [call], true)
        case Some(message) =>
          var q := Report(m[s.id := message], data[1..], rp);
          Progress(q.streams, [call] + q.sends, q.raised)
  }

  /** No two sends in `calls` are for the same stream. */
  predicate SendsDistinct(calls: seq<Call>) {
    forall i, j :: 0 <= i < j < |calls| ==> calls[i].stream != calls[j].stream
  }

  /**
   * Sends go only to live streams that were not reported, one per stream;
   * when the loop completes, every such stream has had its send.
   */
  lemma {:induction false} ReportSendsOnlyNew(m: map<StreamId, MessageId>, data: seq<Stream>, rp: Replies)
    ensures var p := Report(m, data, rp);
      && (forall c :: c in p.sends ==> c.Send? && c.stream !in m && c.stream in StreamIds(data))
      && SendsDistinct(p.sends)
      && (!p.raised ==> (set c | c in p.sends :: c.stream) == StreamIds(data) - m.Keys)
    decreases |data|
  {
    if data != [] {
      StreamIdsCons(data);
      var s := data[0];
      if s.id in m {
        ReportSendsOnlyNew(m, data[1..], rp);
      } else if rp.send(s.id).Some? {
        var m' := m[s.id := rp.send(s.id).value];
        ReportSendsOnlyNew(m', data[1..], rp);
        var q := Report(m', data[1..], rp);
        var sends := [Send(s.id, s.viewerCount)] + q.sends;
        assert forall c :: c in sends ==> c == Send(s.id, s.viewerCount) || c in q.sends;
        forall i, j | 0 <= i < j < |sends| ensures sends[i].stream != sends[j].stream {
          assert sends[j] == q.sends[j - 1] && sends[j] in q.sends;
          if i > 0 { assert sends[i] == q.sends[i - 1]; }
        }
        if !q.raised {
          assert (set c | c in sends :: c.stream) == {s.id} + (set c | c in q.sends :: c.stream);
        }
      }
    }
  }

  /**
   * When the loop completes, the record keeps every earlier entry and maps
   * each new live stream to the message id its send returned.
   */
  lemma {:induction false} ReportRecords(m: map<StreamId, MessageId>, data: seq<Stream>, rp: Replies)
    ensures var p := Report(m, data, rp);
      && (forall k :: k in m ==> k in p.streams && p.streams[k] == m[k])
      && p.streams.Keys <= m.Keys + StreamIds(data)
      && (!p.raised ==>
            && p.streams.Keys == m.Keys + StreamIds(data)
            && forall k :: k in p.streams && k !in m ==> rp.send(k) == Some(p.streams[k]))
    decreases |data|
  {
    if data != [] {
      StreamIdsCons(data);
      var s := data[0];
      if s.id in m {
        ReportRecords(m, data[1..], rp);
      } else if rp.send(s.id).Some? {
        var m' := m[s.id := rp.send(s.id).value];
        ReportRecords(m', data[1..], rp);
      }
    }
  }

  /** The loop raises exactly when the send for some new live stream raises. */
  lemma {:induction false} ReportRaisesOnFailedSend(m: map<StreamId, MessageId>, data: seq<Stream>, rp: Replies)
    ensures Report(m, data, rp).raised <==>
      exists k :: k in StreamIds(data) && k !in m && rp.send(k).None?
    decreases |data|
  {
    if data != [] {
      StreamIdsCons(data);
      var s := data[0];
      if s.id in m {
        ReportRaisesOnFailedSend(m, data[1..], rp);
      } else if rp.send(s.id).Some? {
        var m' := m[s.id := rp.send(s.id).value];
        ReportRaisesOnFailedSend(m', data[1..], rp);
      }
    }
  }

  /**
   * The state and calls of a pass that got the snapshot `data`: `m0` is the
   * record before it and `m` the record after it.
   */
  ghost predicate PassResult(m0: map<StreamId, MessageId>, data: seq<Stream>, rp: Replies,
                             outcome: Outcome, deletions: seq<Call>, sends: seq<Call>, m: map<StreamId, MessageId>)
  {
    var ids := StreamIds(data);
    && DeletionCalls(m0, ids, deletions)
    && (forall c :: c in deletions ==> c.stream !in m)
    && if DeletionRaises(m0, ids, rp) then
         && outcome == Raised && sends == []
         && m == m0 - (set c | c in deletions :: c.stream)
         && Live(m0, ids).Keys <= m.Keys <= m0.Keys
         && (forall k :: k in m ==> m[k] == m0[k])
         && (exists k :: k in m0 && k !in ids && rp.delete(m0[k]).DeleteRaised? && k !in m)
       else
         var p := Report(Live(m0, ids), data, rp);
         && (set c | c in deletions :: c.stream) == m0.Keys - ids
         && m == p.streams && sends == p.sends
         && outcome == (if p.raised then Raised else Completed)
  }

  /** The module-level `reported_streams`. */
  class Tracker {
    var reportedStreams: map<StreamId, MessageId>

    constructor ()
      ensures reportedStreams == map[]
    {
      reportedStreams := map[];
    }

    /**
     * The loop over `offline_streams`: each entry is popped, then its
     * message fetched and deleted; a NotFound is ignored, any other
     * exception ends the pass with the entry already gone.
     */
    method DeleteOffline(ids: set<StreamId>, rp: Replies) returns (raised: bool, deletions: seq<Call>)
      modifies this
      ensures DeletionCalls(old(reportedStreams), ids, deletions)
      ensures forall c :: c in deletions ==> c.stream !in reportedStreams
      ensures reportedStreams == old(reportedStreams) - (set c | c in deletions :: c.stream)
      ensures raised == DeletionRaises(old(reportedStreams), ids, rp)
      ensures raised ==>
        && Live(old(reportedStreams), ids).Keys <= reportedStreams.Keys <= old(reportedStreams).Keys
        && (forall k :: k in reportedStreams ==> reportedStreams[k] == old(reportedStreams)[k])
        && (exists k :: k in old(reportedStreams) && k !in ids && rp.delete(old(reportedStreams)[k]).DeleteRaised?
                        && k !in reportedStreams)
      ensures !raised ==>
        && reportedStreams == Live(old(reportedStreams), ids)
        && (set c | c in deletions :: c.stream) == old(reportedStreams).Keys - ids
    {
      ghost var m0 := reportedStreams;
      var offline := reportedStreams.Keys - ids;
      deletions := [];
      ghost var done: set<StreamId> := {};
      while offline != {}
        invariant offline + done == m0.Keys - ids && offline !! done
        invariant reportedStreams == m0 - done
        invariant forall k :: k in done ==> !rp.delete(m0[k]).DeleteRaised?
        invariant DeletionCalls(m0, ids, deletions)
        invariant (set c | c in deletions :: c.stream) == done
        decreases offline
      {
        var k :| k in offline;
        var message := reportedStreams[k];
        reportedStreams := reportedStreams - {k};  // reported_streams.pop(stream_id)
        assert k !in done;
        DeletionCallsAppend(m0, ids, deletions, k);
        deletions := deletions + [Delete(k, message)];
        offline := offline - {k};
        done := done + {k};
        if rp.delete(message).DeleteRaised? {
          PoppedBeforeDelete(m0, ids, done, k);
          return true, deletions;
        }
      }
      assert reportedStreams == Live(m0, ids);
      raised := false;
    }

    /** The loop over `current_streams['data']`: a send and a record for every stream not yet reported. */
    method ReportNew(data: seq<Stream>, rp: Replies) returns (raised: bool, sends: seq<Call>)
      modifies this
      ensures var p := Report(old(reportedStreams), data, rp);
        reportedStreams == p.streams && sends == p.sends && raised == p.raised
    {
      ghost var target := Report(reportedStreams, data, rp);
      sends := [];
      var i := 0;
      while i < |data|
        invariant 0 <= i <= |data|
        invariant var q := Report(reportedStreams, data[i..], rp);
          q.streams == target.streams && sends + q.sends == target.sends && q.raised == target.raised
      {
        var s := data[i];
        assert data[i..][0] == s && data[i..][1..] == data[i + 1..];
        if s.id !in reportedStreams {
          sends := sends + [Send(s.id, s.viewerCount)];
          var message := rp.send(s.id);
          if message.None? {
            return true, sends;  // channel.send raised
          }
          reportedStreams := reportedStreams[s.id := message.value];
        }
        i := i + 1;
      }
      raised := false;
    }

    /**
     * One pass of the `while True` loop in on_ready. The deletions come
     * back in `deletions` and the sends in `sends`: every delete is issued
     * before any send.
     */
    method PollOnce(fetch: Fetch, rp: Replies) returns (outcome: Outcome, deletions: seq<Call>, sends: seq<Call>)
      modifies this
      ensures fetch.FetchRaised? || fetch.data.None? ==>
        outcome == Raised && deletions == [] && sends == [] && reportedStreams == old(reportedStreams)
      ensures fetch.Fetched? && fetch.data.Some? ==>
        PassResult(old(reportedStreams), fetch.data.value, rp, outcome, deletions, sends, reportedStreams)
    {
      deletions, sends := [], [];
      if fetch.FetchRaised? || fetch.data.None? {
        return Raised, deletions, sends;  // the request raised, or KeyError on ['data']
      }
      var data := fetch.data.value;
      var ids := set i | 0 <= i < |data| :: data[i].id;
      assert ids == StreamIds(data);
      var raised;
      raised, deletions := DeleteOffline(ids, rp);
      if raised {
        return Raised, deletions, sends;
      }
      ghost var afterDeletion := reportedStreams;
      raised, sends := ReportNew(data, rp);
      ReportRecords(afterDeletion, data, rp);
      outcome := if raised then Raised else Completed;
    }
  }

  /** If no delete and no send raises, the pass leaves exactly the live streams reported. */
  lemma PassTracksExactlyLive(m0: map<StreamId, MessageId>, data: seq<Stream>, rp: Replies)
    requires !DeletionRaises(m0, StreamIds(data), rp)
    requires forall k :: k in StreamIds(data) ==> rp.send(k).Some?
    ensures var p := Report(Live(m0, StreamIds(data)), data, rp);
      !p.raised && p.streams.Keys == StreamIds(data)
  {
    var ids := StreamIds(data);
    ReportRaisesOnFailedSend(Live(m0, ids), data, rp);
    ReportRecords(Live(m0, ids), data, rp);
  }

  /** A stream already reported gets no second message in later passes. */
  lemma ReportedStreamGetsNoSend(m0: map<StreamId, MessageId>, data: seq<Stream>, rp: Replies, k: StreamId)
    requires k in Live(m0, StreamIds(data))
    ensures forall c :: c in Report(Live(m0, StreamIds(data)), data, rp).sends ==> c.stream != k
  {
    ReportSendsOnlyNew(Live(m0, StreamIds(data)), data, rp);
  }
}
