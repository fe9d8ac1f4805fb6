/**
 * utils.py: reading and writing settings.json, the permission check used by
 * every slash command, removing a guild's settings, and the purge of the
 * bot's messages at start-up.
 */
module Utils {
  import opened Wrappers
  import opened SettingsData
  import opened BotState
  import Twitch

  // ---------------------------------------------------------------------
  // load_settings and save_settings (utils.py:6-16)
  // ---------------------------------------------------------------------

  /** What opening and parsing settings.json finds. */
  datatype FileState = Missing | Malformed | Stored(settings: Settings)

  /** `{'dev_mode': False, 'guilds': {}}`. */
  const DefaultSettings: Settings := Settings(Some(Bool(false)), Some(map[]), map[])

  /** load_settings: the stored settings, or the default when the file is missing or not valid JSON. */
  function LoadSettings(file: FileState): (s: Settings)
    ensures file.Stored? ==> s == file.settings
    ensures !file.Stored? ==> s.devMode == Some(Bool(false)) && s.guilds == Some(map[]) && s.sections == map[]
  {
    if file.Stored? then file.settings else DefaultSettings
  }

  /** settings.json, with the record of every save_settings call. */
  class SettingsFile {
    var contents: FileState
    var saves: seq<Settings>

    constructor (contents: FileState)
      ensures this.contents == contents && saves == []
    {
      this.contents := contents;
      saves := [];
    }

    /** save_settings. */
    method Save(s: Settings)
      modifies this
      ensures contents == Stored(s) && saves == old(saves) + [s]
    {
      contents := Stored(s);
      saves := saves + [s];
    }

    /**
     * delete_guild_data: load, drop the guild from settings['guilds'] and
     * save, or, when the guild is not there, leave the file alone.
     */
    method DeleteGuildData(guildId: GuildId)
      modifies this
      ensures var s := LoadSettings(old(contents));
        if s.guilds.Some? && guildId in s.guilds.value then
          contents == Stored(WithoutGuild(s, guildId)) && saves == old(saves) + [WithoutGuild(s, guildId)]
        else
          contents == old(contents) && saves == old(saves)
    {
      var settings := LoadSettings(contents);
      if settings.guilds.Some? && guildId in settings.guilds.value {
        settings := WithoutGuild(settings, guildId);
        Save(settings);
      }
    }
  }

  /** `del settings['guilds'][guild_id]`: that guild goes, every other key stays as it was. */
  function WithoutGuild(s: Settings, guildId: GuildId): (r: Settings)
    requires s.guilds.Some?
    ensures r.devMode == s.devMode && r.sections == s.sections
    ensures r.guilds.Some? && r.guilds.value.Keys == s.guilds.value.Keys - {guildId}
    ensures forall g :: g in r.guilds.value ==> r.guilds.value[g] == s.guilds.value[g]
  {
    s.(guilds := Some(s.guilds.value - {guildId}))
  }

  /** With the settings that delete_guild_data saves, the guild is not reconciled. */
  lemma DeletedGuildIsSkipped(s: Settings, guildId: GuildId, categoryName: Scalar, channels: set<int>)
    requires s.guilds.Some?
    ensures !Twitch.Configured(WithoutGuild(s, guildId), guildId, categoryName, channels)
  {
  }

  /** Without a readable file, no guild is configured, so no guild is reconciled. */
  lemma DefaultSettingsConfigureNothing(file: FileState, guildId: GuildId, categoryName: Scalar, channels: set<int>)
    requires !file.Stored?
    ensures !Twitch.Configured(LoadSettings(file), guildId, categoryName, channels)
  {
  }

  // ---------------------------------------------------------------------
  // has_allowed_role (utils.py:19-27)
  // ---------------------------------------------------------------------

  type RoleId = int

  /**
   * The parts of a discord.Interaction the check reads: the guild id, the
   * user's administrator permission, the ids of the user's roles and the
   * ids of the roles the guild has (what `guild.get_role` can find).
   */
  datatype Interaction = Interaction(guildId: nat, administrator: bool, userRoles: set<RoleId>, guildRoles: set<RoleId>)

  function Digit(d: nat): char
    requires d < 10
  {
    "0123456789"[d]
  }

  /** `str(n)` for a non-negative integer: its decimal digits. */
  function GuildKey(n: nat): (s: string)
    ensures |s| >= 1
    ensures forall i :: 0 <= i < |s| ==> '0' <= s[i] <= '9'
    ensures (n < 10) == (|s| == 1)
  {
    if n < 10 then [Digit(n)] else GuildKey(n / 10) + [Digit(n % 10)]
  }

  /** A guild key never names one of the other top-level settings. */
  lemma GuildKeyIsNotReserved(n: nat)
    ensures GuildKey(n) != "guilds" && GuildKey(n) != "dev_mode"
  {
    var k := GuildKey(n);
    assert '0' <= k[0] <= '9';
  }

  /** `settings.get(key, {})` for a top-level key other than 'dev_mode' and 'guilds'. */
  function SectionOf(s: Settings, key: string): Dict {
    if key in s.sections then s.sections[key] else map[]
  }

  /** `guild.get_role(role_id) in user.roles`: the id is an int of a guild role the user has. */
  predicate RoleHeld(i: Interaction, roleId: Scalar) {
    roleId.Int? && roleId.i in i.guildRoles && roleId.i in i.userRoles
  }

  /**
   * has_allowed_role as written: administrators are always allowed; anyone
   * else needs the role stored under 'allowed_role' of the TOP-LEVEL entry
   * `settings[str(guild_id)]`, which must be set and held by the user.
   */
  function HasAllowedRole(i: Interaction, s: Settings): (allowed: bool)
    ensures i.administrator ==> allowed
    ensures !i.administrator ==>
      (allowed <==> exists role :: role != 0 && role in i.userRoles && role in i.guildRoles &&
                                   Get(SectionOf(s, GuildKey(i.guildId)), "allowed_role") == Int(role))
  {
    if i.administrator then true
    else
      var roleId := Get(SectionOf(s, GuildKey(i.guildId)), "allowed_role");
      if Truthy(roleId) then RoleHeld(i, roleId) else false
  }

  /** Only administrators pass the check when settings.json could not be read. */
  lemma DefaultSettingsAllowOnlyAdministrators(i: Interaction, file: FileState)
    requires !file.Stored?
    ensures HasAllowedRole(i, LoadSettings(file)) == i.administrator
  {
  }

  /** set_allowed_role's write (commands.py:13-15): `settings['guilds'][guild_id]['allowed_role'] = role.id`. */
  function SetAllowedRole(s: Settings, key: GuildId, role: RoleId): (r: Settings)
    requires s.guilds.Some?
    ensures r.devMode == s.devMode && r.sections == s.sections && r.guilds.Some?
    ensures r.guilds.value.Keys == s.guilds.value.Keys + {key}
    ensures Get(r.guilds.value[key], "allowed_role") == Int(role)
    ensures forall g :: g in s.guilds.value && g != key ==> r.guilds.value[g] == s.guilds.value[g]
    ensures r.guilds.value[key].Keys ==
      (if key in s.guilds.value then s.guilds.value[key].Keys else {}) + {"allowed_role"}
    ensures key in s.guilds.value ==> forall n :: n in s.guilds.value[key] && n != "allowed_role" ==>
      r.guilds.value[key][n] == s.guilds.value[key][n]
  {
    var current := if key in s.guilds.value then s.guilds.value[key] else map[];
    s.(guilds := Some(s.guilds.value[key := current["allowed_role" := Int(role)]]))
  }

  /**
   * The role that set_allowed_role stores is never seen by has_allowed_role:
   * a user who holds it, without being an administrator, is still refused.
   */
  lemma RoleSetByCommandIsIgnored(s: Settings, i: Interaction, role: RoleId)
    requires s.guilds.Some? && !i.administrator
    requires GuildKey(i.guildId) !in s.sections
    ensures !HasAllowedRole(i, SetAllowedRole(s, GuildKey(i.guildId), role))
  {
  }

  /** has_allowed_role reading the role where the commands store it: `settings['guilds'][guild_id]`. */
  function HasAllowedRoleIntended(i: Interaction, s: Settings): (allowed: bool)
    ensures i.administrator ==> allowed
    ensures !i.administrator ==>
      (allowed <==> exists role :: role != 0 && role in i.userRoles && role in i.guildRoles &&
                                   GuildSettingsOf(s, GuildKey(i.guildId)).Some? &&
                                   Get(GuildSettingsOf(s, GuildKey(i.guildId)).value, "allowed_role") == Int(role))
  {
    if i.administrator then true
    else
      var gs := GuildSettingsOf(s, GuildKey(i.guildId));
      var roleId := if gs.Some? then Get(gs.value, "allowed_role") else Null;
      if Truthy(roleId) then RoleHeld(i, roleId) else false
  }

  /** With the intended lookup, a user holding the role set by set_allowed_role is allowed. */
  lemma RoleSetByCommandIsHonoured(s: Settings, i: Interaction, role: RoleId)
    requires s.guilds.Some?
    requires role != 0 && role in i.userRoles && role in i.guildRoles
    ensures HasAllowedRoleIntended(i, SetAllowedRole(s, GuildKey(i.guildId), role))
  {
  }

  // ---------------------------------------------------------------------
  // delete_all_messages (utils.py:30-57)
  // ---------------------------------------------------------------------

  /** How the purge of one channel's history ends. */
  datatype PurgeReply = Purged | PurgeForbidden | PurgeRateLimited | PurgeFailed

  /** `settings.get('guilds', {})`. */
  function GuildsOf(s: Settings): map<GuildId, Dict> {
    if s.guilds.Some? then s.guilds.value else map[]
  }

  /** The guild has a truthy channel id, the channel exists, and its purge went through. */
  predicate PurgedGuild(settings: Settings, channels: set<int>, purge: GuildId -> PurgeReply, g: GuildId) {
    var guilds := GuildsOf(settings);
    && g in guilds
    && Truthy(Get(guilds[g], "channel_id"))
    && ChannelFound(channels, Get(guilds[g], "channel_id"))
    && purge(g).Purged?
  }

  /** The bot's record with the guilds `gs` reset to no tracked streams. */
  function ResetStreams(rs: map<GuildId, GuildStreams>, gs: set<GuildId>): (r: map<GuildId, GuildStreams>)
    ensures r.Keys == rs.Keys + gs
    ensures forall g :: g in gs ==> r[g] == map[]
    ensures forall g :: g in rs && g !in gs ==> r[g] == rs[g]
  {
    map g | g in rs.Keys + gs :: if g in gs then map[] else rs[g]
  }

  /**
   * delete_all_messages: every guild whose channel was purged has its
   * tracked streams reset to the empty map; the others keep theirs.
   */
  method DeleteAllMessages(bot: Bot, settings: Settings, channels: set<int>, purge: GuildId -> PurgeReply)
    modifies bot
    ensures bot.reportedStreams ==
      ResetStreams(old(bot.reportedStreams), set g | g in GuildsOf(settings) && PurgedGuild(settings, channels, purge, g))
  {
    var guilds := GuildsOf(settings);
    var pending := guilds.Keys;
    ghost var visited: set<GuildId> := {};
    while pending != {}
      invariant pending + visited == guilds.Keys && pending !! visited
      invariant bot.reportedStreams ==
        ResetStreams(old(bot.reportedStreams), set g | g in visited && PurgedGuild(settings, channels, purge, g))
      decreases pending
    {
      var g :| g in pending;
      ghost var purgedBefore := set h | h in visited && PurgedGuild(settings, channels, purge, h);
      var channelId := Get(guilds[g], "channel_id");
      if Truthy(channelId) && ChannelFound(channels, channelId) && purge(g).Purged? {
        bot.reportedStreams := bot.reportedStreams[g := map[]];
        assert (set h | h in visited + {g} && PurgedGuild(settings, channels, purge, h)) == purgedBefore + {g};
      } else {
        assert (set h | h in visited + {g} && PurgedGuild(settings, channels, purge, h)) == purgedBefore;
      }
      pending := pending - {g};
      visited := visited + {g};
    }
  }
}
