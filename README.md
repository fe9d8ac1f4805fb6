# Sinon stream notifier: a Dafny model of its reconciliation core

Sinon is a Discord bot. It polls the Twitch Helix API for the live streams in
a game category, read per guild from its settings (`category_name`). For each
guild it posts a message per live stream, edits
that message while the stream stays live, and deletes it when the stream goes
offline. The bot's memory of what it posted is `bot.reported_streams`:
guild id → stream id → entry, where an entry holds `max_viewers` and `message`.

The project models these parts:

- `twitch.py` (module `Twitch`):
  - `check_streams_once`, one reconciliation cycle for one guild;
  - `send_notification`;
  - `get_twitch_streams`.
- The loop body of `on_ready` in `sinon.py` (module `Sinon`), the single-channel
  variant. Its record maps each stream id to the posted message.
- `utils.py` (module `Utils`):
  - `load_settings` and its default;
  - `save_settings`;
  - `has_allowed_role`;
  - `delete_guild_data`;
  - `delete_all_messages`, which resets a guild's record to `{}`.
- Shared data:
  - the stream ids and viewer counts of a Helix reply (module `Helix`);
  - `settings.json` values (module `SettingsData`);
  - the bot's record (module `BotState`).

Every conversation with Twitch or Discord is an oracle parameter. That covers
fetching, sending, editing, deleting and purging. Each oracle maps the thing
acted on to the reply or exception that comes back (`Twitch.Replies`,
`Sinon.Replies`, `Utils.PurgeReply`). A Python exception that leaves the
function is the outcome `Raised`, and the state built up until then is kept.

Some code is imperative: the cycle in `check_streams_once`, `on_ready`'s
pass, `delete_all_messages` and `delete_guild_data`. The state these update
in place is held in classes: `BotState.Bot` for `bot.reported_streams`,
`Sinon.Tracker` for sinon.py's module-level record, and `Utils.SettingsFile`
for settings.json. Sinon's pass and the settings file operations are methods
of their classes. `check_streams_once` and `delete_all_messages` are
module-level functions in the source, so here they are module-level methods
that take the `bot: Bot` and modify it. The methods' loops and invariants are
proved against specification functions and predicates:

- the deletion predicates;
- `Twitch.Process`, which folds `Twitch.Step` over the fetched list;
- `Sinon.Report`.

The lemmas state what a cycle guarantees.

## Model

| member | source | states |
|---|---|---|
| SettingsData.GuildSettingsOf | twitch.py:80 | `settings.get('guilds', {}).get(guild_id)` is present exactly when the guilds table exists and holds the guild, and then it is that guild's dict |
| BotState.Bot.constructor | bot.py:19-20 | the bot starts with no tracked streams in any guild |
| Twitch.GetTwitchStreams | twitch.py:16-35 | the streams reply is returned when the games reply has a non-empty `data` and neither request raised; otherwise the result is `{'data': []}` |
| Twitch.Posted | twitch.py:59-75 | one send_notification call, retries included, posts at most one message |
| Twitch.SendNotification | twitch.py:59-75 | a returned message is the one message posted. The result is None exactly when the first attempt does not succeed (Forbidden, a rate limit, another HTTP error, another exception) |
| Twitch.PeakIsMaximum | twitch.py:124-126 | the running maximum is at least the start value and every viewer count seen for the stream, and it is one of them |
| Twitch.ProcessKeepsTracked | twitch.py:122-153 | a stream tracked before the loop stays tracked, keeps its message whatever its edits replied, and its `max_viewers` never decreases |
| Twitch.ProcessUntouched | twitch.py:112-176 | a stream that is not in the fetched list is neither added nor removed, and a tracked one keeps its entry exactly |
| Twitch.ProcessKeys | twitch.py:112-176 | after the loop, the tracked ids lie within the old tracked ids plus the fetched ids; when nothing raised they are exactly that union |
| Twitch.ProcessNewMessage | twitch.py:154-176 | an entry for a stream that was not tracked before the loop holds exactly what send_notification returned, None included |
| Twitch.ProcessMaxIsPeak | twitch.py:122-126 | when nothing raised, each stream's `max_viewers` is the maximum of its old value and every viewer count in the list |
| Twitch.ProcessCalls | twitch.py:139-176 | the loop never deletes. Each send is for a stream that was not tracked before the loop and shows its viewers as the max. Each edit shows a max at least the current viewers |
| Twitch.ProcessEditsTracked | twitch.py:122-153 | in a loop that completes, the first time a tracked stream comes up, its own message is edited to show the current viewers and the updated stored maximum, the larger of the old maximum and the viewers |
| Twitch.ProcessSendsOncePerStream | twitch.py:122-174 | no stream gets two notifications in one cycle, even when a Twitch page lists it twice |
| Twitch.DeleteOffline | twitch.py:104-110 | each tracked stream that is no longer live gets one delete attempt and is removed, a NotFound reply included. A missing message or another error raises. Whether or not the loop raises, the record afterwards is the old one minus exactly the streams whose delete call went through; live and undeletable entries stay |
| Twitch.NotFoundBeforeKeyError | twitch.py:104-110 | a delete answered with NotFound removes its entry even when a later entry without a message makes the loop raise |
| Twitch.UpdateStream | twitch.py:112-176 | one iteration of the stream loop changes the guild's record and the Discord calls exactly as `Step` says |
| Twitch.UpdateStreams | twitch.py:112-176 | the stream loop changes the guild's record and the calls exactly as `Process` says, stopping at the first exception |
| Twitch.CheckStreamsOnce | twitch.py:79-176 | every other guild is unchanged. The cycle skips, changing nothing and calling nothing, exactly when the guild is unconfigured, has no channel id, has no category, has an unknown channel, or has an empty stream list. Otherwise the guild's record is first created, then the offline streams are deleted, then the loop runs |
| Twitch.CycleTracksExactlyLive | twitch.py:102-176 | a cycle that raises nothing leaves exactly the live streams tracked |
| Twitch.CycleRatchetsMax | twitch.py:122-153 | across a cycle that completes, a tracked stream listed once keeps its message, its `max_viewers` becomes the larger of the old max and the new viewer count, and its message is edited to show the viewers and that max |
| Twitch.TwoCyclesOfOneStream | twitch.py:122-176 | a stream is posted when first seen and edited in the next cycle, with its max updated |
| Twitch.MessagelessEntryRaises | twitch.py:122-123 | a tracked entry without a `message` in the list makes the loop raise KeyError |
| Twitch.MessagelessEntryStallsGuild | twitch.py:104-123 | a cycle that gets data raises when the guild has such an entry, either at its deletion or at its edit, and leaves the entry tracked, still without a message. So any later cycle that gets data raises too, as long as the record is not reset in between (delete_all_messages resets it after a successful purge, utils.py:41); cycles without data are skipped |
| Twitch.ForbiddenSendThenKeyError | twitch.py:154-176 | a Forbidden first send, followed by the stream still being live one cycle later, ends in KeyError |
| Twitch.RetryMessageIsLost | twitch.py:66-75 | a rate-limited send whose retry succeeds posts a message, yet the call returns None |
| Twitch.SendNotificationIntended | twitch.py:59-75 | the corrected send returns a message exactly when one was posted, and returns that message |
| Twitch.IntendedKeepsMessages | twitch.py:154-176 | with entries created only for sent messages, every tracked entry keeps a message |
| Twitch.IntendedDeletionRaisesOnlyOnDelete | twitch.py:104-110 | with every entry holding a message, deletion raises only when Discord's delete raises |
| Utils.LoadSettings | utils.py:6-11 | the stored settings; the default `{'dev_mode': False, 'guilds': {}}` when the file is missing or malformed |
| Utils.SettingsFile.Save | utils.py:14-16 | the file holds the given settings and one more save is recorded |
| Utils.SettingsFile.DeleteGuildData | utils.py:60-68 | if the guild is present, it alone is removed and the result is saved once; otherwise the file is not touched |
| Utils.WithoutGuild | utils.py:63-64 | only that guild's key leaves `settings['guilds']`; the other guilds and top-level keys are kept |
| Utils.DeletedGuildIsSkipped | twitch.py:80-82 | with the settings that delete_guild_data saves, check_streams_once skips the guild |
| Utils.DefaultSettingsConfigureNothing | utils.py:10-11 | with the default settings, every guild is skipped |
| Utils.GuildKey | utils.py:20 | `str(guild_id)` is a non-empty string of decimal digits |
| Utils.GuildKeyIsNotReserved | utils.py:23 | a guild key never collides with the `dev_mode` or `guilds` keys |
| Utils.HasAllowedRole | utils.py:19-27 | administrators are allowed. Anyone else is allowed exactly when `settings[str(guild_id)]['allowed_role']` names a nonzero role that exists in the guild and that the user holds |
| Utils.DefaultSettingsAllowOnlyAdministrators | utils.py:21-27 | with the default settings, only administrators pass |
| Utils.SetAllowedRole | commands.py:13-15 | `settings['guilds'][gid]['allowed_role']` becomes the role, and the guild entry is created if missing. The guild's other keys keep their values, and the other guilds and top-level keys are unchanged |
| Utils.RoleSetByCommandIsIgnored | utils.py:23 | a non-administrator holding the role set by set_allowed_role is refused |
| Utils.HasAllowedRoleIntended | utils.py:19-27 | as HasAllowedRole, but the role is read from `settings['guilds'][str(guild_id)]` |
| Utils.RoleSetByCommandIsHonoured | commands.py:13-15 | with the corrected lookup, a holder of the role that was set is allowed |
| Utils.ResetStreams | utils.py:41 | the given guilds map to `{}`; every other guild keeps its record |
| Utils.DeleteAllMessages | utils.py:30-57 | exactly the guilds with a truthy, existing channel whose purge went through are reset to `{}`; the others are unchanged |
| Sinon.Tracker.constructor | sinon.py:40-41 | the record starts empty |
| Sinon.Tracker.DeleteOffline | sinon.py:70-79 | each offline stream is popped before its delete attempt, and NotFound is absorbed. The record afterwards is the old one minus exactly the streams that got a delete call, whether or not a later delete raised |
| Sinon.Tracker.ReportNew | sinon.py:81-96 | the report loop changes the record and the sends exactly as `Report` says |
| Sinon.Tracker.PollOnce | sinon.py:64-100 | a failed fetch or missing `data` changes nothing. Otherwise the offline streams are removed first, then the new ones are reported, and the outcome says whether an exception ended the pass |
| Sinon.ReportSendsOnlyNew | sinon.py:82-96 | a send goes only to a live stream that was not already reported, and at most once per stream; when the loop completes, every such stream has had its send |
| Sinon.ReportRecords | sinon.py:82-96 | after a pass that raised nothing, every fetched stream is recorded, and a newly sent stream maps to the id of its message |
| Sinon.ReportRaisesOnFailedSend | sinon.py:95-100 | the loop raises exactly when the send for some live stream that was not reported fails |
| Sinon.PassTracksExactlyLive | sinon.py:67-96 | when no delete raises and every send succeeds, the record's keys are exactly the live stream ids |
| Sinon.ReportedStreamGetsNoSend | sinon.py:84 | a stream that is still live and already reported is never sent again |

## Left out

- HTTP and Discord I/O: these are oracle parameters, and the messages' embeds (title, URL, colours, fields, footer) are not modelled.
- `get_user_info` (twitch.py:37-57) catches every exception and only feeds the embed text, so it has no effect on the record and is not modelled.
- Dict iteration order: the loops over `reported_streams` pick keys in any order, so every result holds for all orders.
- `asyncio.sleep`, the scheduler, `bot.py`'s events apart from the initial `reported_streams`, `app.py` and the static web page are not part of this model.
- `commands.py` is not part of this model, apart from the `set_allowed_role` write to settings.
- Utils.DeleteAllMessages: a rate-limited purge (HTTP 429) retries the whole function recursively (utils.py:45-49). The model treats it as that guild not being reset in this pass, so it does not capture the retry.
- Utils.DeleteAllMessages: a purge is a single reply per guild. Partial deletion of a channel's history is not modelled, because only the reset of the record is observable in the model.
- Settings values are JSON scalars. Top-level keys other than `dev_mode` and `guilds` are modelled as dicts only. A role id that is not an int never matches a guild role.
- Sinon's missing channel (`get_channel` returning None) appears only as every Discord call raising. The message id and the channel lookup are not modelled separately.
- An empty stream list returns at twitch.py:95-97: nothing is deleted and the record stays as it was.
- Only `NotFound` is caught at twitch.py:107-109: Forbidden and other errors raise out of the cycle.
- File persistence is modelled as a record of saved values. JSON encoding, indentation and write failures are not modelled.
- Utils.DeletedGuildIsSkipped: the running bot reconciles with the settings object loaded once at bot.py:23 and passed on at bot.py:55-57. delete_guild_data (utils.py:61-66) loads and saves its own copy, so the bot in memory keeps reconciling a deleted guild until it restarts. The lemma is about the saved settings only, and the in-memory settings are not modelled as a separate value.
- sinon.py:18 (`CATEGORY_NAME = 'BattleCore Arena`) lacks its closing quote, so the file does not parse as given. The model assumes the evident constant `'BattleCore Arena'`. The category only reaches the fetch, which is an oracle parameter here.
- sinon.py:98: `asyncio.sleep(150)` sits inside the `try`, so a pass that raises starts the next one at once, with no wait. The model covers one pass (Sinon.Tracker.PollOnce), so this retry timing is not modelled; the state properties do not depend on it.
- Twitch.SendNotification: a rate-limited send (HTTP 429) is modelled as a retry. This assumes `e.retry_after` (twitch.py:67) exists on the exception; if it did not, the AttributeError would escape send_notification, which the model does not capture.
- Concurrency: each modelled call (check_streams_once, delete_all_messages, one pass of sinon's loop) runs alone, with nothing else touching the record between its awaits. Two interleavings are not captured. First, if `on_ready` runs again while `check_streams` is mid-cycle, its delete_all_messages (bot.py:35, utils.py:41) can replace the guild's record with `{}`, and `del bot.reported_streams[guild_id][stream_id]` (twitch.py:110) then raises KeyError. Second, a second `on_ready` in sinon.py:61-64 starts another `while True` loop over the same module-level `reported_streams`. That `on_ready` can fire more than once is a property of discord.py, which is not part of this model.
- commands.py:2 imports `log_with_guild_info` from utils, but utils.py defines no such name, so as given `from commands import setup_commands` (bot.py:5) fails and the multi-guild bot does not start. The model assumes the helper exists and only logs; the modelled operations and the set_allowed_role write do not depend on it.
- bot.py:55-57 has no `try` around check_streams_once, so an exception from one guild's cycle escapes `check_streams` and the remaining guilds are not reached. Whether the periodic task at bot.py:53 runs again after that depends on discord.py, which is not part of this model.

## Findings

| source | as written | input that shows it | evidently intended | confidence | as-written member | corrected member |
|---|---|---|---|---|---|---|
| utils.py:23 | reads `allowed_role` from `settings[str(guild_id)]`, while set_allowed_role (commands.py:13-15) writes it under `settings['guilds'][guild_id]` | set_allowed_role stores role 5 for guild 42, then a non-administrator who holds role 5 runs a command: they are refused | read from `settings['guilds'][str(guild_id)]` | not executed; high | Utils.RoleSetByCommandIsIgnored | Utils.RoleSetByCommandIsHonoured |
| twitch.py:70 | the result of the recursive retry is discarded, and the function falls through to `return None` | the first send gets HTTP 429 and the retry posts message 7: message 7 is on the channel, but None is returned and the stream is tracked without a message | `return await send_notification(channel, embed)` | not executed; high | Twitch.RetryMessageIsLost | Twitch.SendNotificationIntended |
| twitch.py:155-157 | the entry is created before the send and kept when the send returns None. Once the stream is tracked, line 123 (edit) or line 107 (delete) reads `['message']` and raises KeyError | stream s1's first send is Forbidden. In the next cycle s1 is still live: KeyError. The entry stays without a message, so any later call of check_streams_once for the guild that gets data raises too, as long as the record is not reset in between (delete_all_messages resets it after a successful purge, utils.py:41). The exception escapes `check_streams` (bot.py:55-57); whether that task is started again is outside this model | store the entry only when a message was returned | not executed; high | Twitch.MessagelessEntryStallsGuild | Twitch.IntendedKeepsMessages |
