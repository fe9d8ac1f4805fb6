/**
 * The bot object's in-memory record of which streams have a Discord
 * message, per guild: `bot.reported_streams`.
 */
module BotState {
  import opened Wrappers
  import opened SettingsData
  import opened Helix

  /** Identity of a discord.Message object returned by a send. */
  type Handle = nat

  /**
   * One tracked stream: the dict `{'max_viewers': v}` with the key
   * 'message' present only once a send has returned a message.
   */
  datatype Entry = Entry(maxViewers: nat, message: Option<Handle>)

  type GuildStreams = map<StreamId, Entry>

  class Bot {
    var reportedStreams: map<GuildId, GuildStreams>

    constructor ()
      ensures reportedStreams == map[]
    {
      reportedStreams := map[];
    }
  }

  /** `bot.get_channel(channel_id)` is not None: the id is an int of a known channel. */
  predicate ChannelFound(channels: set<int>, id: Scalar) {
    id.Int? && id.i in channels
  }

  /** The guild's tracked streams, or the empty map when it has none yet. */
  function StreamsOf(rs: map<GuildId, GuildStreams>, g: GuildId): (m: GuildStreams)
    ensures g in rs ==> m == rs[g]
    ensures g !in rs ==> m == map[]
  {
    if g in rs then rs[g] else map[]
  }
}
