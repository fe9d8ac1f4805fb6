/**
 * The parsed contents of settings.json, as far as the bot reads them.
 *
 * The file is a JSON object whose key "dev_mode" holds a flag, whose key
 * "guilds" maps guild ids to per-guild objects ("channel_id",
 * "category_name", "allowed_role"), and whose remaining keys are
 * per-guild objects read by has_allowed_role.
 */
module SettingsData {
  import opened Wrappers

  /** A JSON leaf value; `Null` also stands for a key that is absent. */
  datatype Scalar = Null | Bool(b: bool) | Int(i: int) | Str(s: string)

  /** One JSON object of leaf values, such as a guild's settings. */
  type Dict = map<string, Scalar>

  type GuildId = string

  datatype Settings = Settings(
    devMode: Option<Scalar>,                 // settings['dev_mode'], if present
    guilds: Option<map<GuildId, Dict>>,      // settings['guilds'], if present
    sections: map<string, Dict>)             // every other top-level key

  /** Python truthiness of a leaf value. */
  predicate Truthy(v: Scalar) {
    match v
    case Null => false
    case Bool(b) => b
    case Int(i) => i != 0
    case Str(s) => s != []
  }

  /** `d.get(k)`, with `None` as `Null`. */
  function Get(d: Dict, k: string): (v: Scalar)
    ensures k !in d ==> v == Null
    ensures k in d ==> v == d[k]
  {
    if k in d then d[k] else Null
  }

  /** `settings.get('guilds', {}).get(guild_id)`. */
  function GuildSettingsOf(s: Settings, g: GuildId): (r: Option<Dict>)
    ensures r.Some? <==> s.guilds.Some? && g in s.guilds.value
    ensures r.Some? ==> r.value == s.guilds.value[g]
  {
    if s.guilds.Some? && g in s.guilds.value then Some(s.guilds.value[g]) else None
  }
}
