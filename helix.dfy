/**
 * The part of a Twitch Helix `streams` reply that both bots read: each
 * live stream's id and viewer count, the set of live ids, and the
 * restriction of a record to the streams that are still live.
 */
module Helix {
  type StreamId = string

  /** One element of the Helix `streams` reply; the other fields only feed the embed. */
  datatype Stream = Stream(id: StreamId, viewerCount: nat)

  /** `current_stream_ids`. */
  function StreamIds(data: seq<Stream>): set<StreamId> {
    set i | 0 <= i < |data| :: data[i].id
  }

  lemma StreamIdsCons(data: seq<Stream>)
    requires data != []
    ensures StreamIds(data) == {data[0].id} + StreamIds(data[1..])
  {
  }

  /** The tracked entries whose stream is still live. */
  function Live<V>(m: map<StreamId, V>, ids: set<StreamId>): (r: map<StreamId, V>)
    ensures r.Keys == m.Keys * ids
    ensures forall k :: k in r ==> r[k] == m[k]
  {
    map k | k in m && k in ids :: m[k]
  }
}
