/**
 * Per-guild settings: a template of defaults and, per guild, a record that is
 * created lazily as a copy of the template and updated by key-wise merge.
 * Records are filed under the decimal text of the guild id.
 */
module ConfigHandler {
  import opened Wrappers
  import Decimal

  /** A settings value as the in-memory records hold it: None or a string. */
  datatype Value = Null | Text(s: string)

  /** One settings record: a dictionary from setting names to values. */
  type Settings = map<string, Value>

  /** Python truthiness of a settings value: None and "" are false. */
  predicate Truthy(v: Value)
  {
    v.Text? && v.s != ""
  }

  /** settings.get(key): the stored value, or None when the key is absent. */
  function Get(settings: Settings, key: string): (v: Value)
    ensures key in settings ==> v == settings[key]
    ensures key !in settings ==> v == Null
  {
    if key in settings then settings[key] else Null
  }

  /** settings.get(key, default): the stored value, or `default` only when the key is absent. */
  function GetOr(settings: Settings, key: string, default: Value): (v: Value)
    ensures key in settings ==> v == settings[key]
    ensures key !in settings ==> v == default
  {
    if key in settings then settings[key] else default
  }

  /** The template written when no configuration file exists. */
  function BuiltInDefaults(): (d: Settings)
    ensures Get(d, "ticket_category_id") == Null && Get(d, "closed_category_id") == Null
    ensures Get(d, "log_channel_id") == Null && Get(d, "publish_channel_id") == Null
    ensures Get(d, "admin_role_name") == Text("Admin")
    ensures Get(d, "embed_color") == Text("#3498db")
  {
    map[
      "ticket_category_id" := Null,
      "closed_category_id" := Null,
      "log_channel_id" := Null,
      "publish_channel_id" := Null,
      "admin_role_name" := Text("Admin"),
      "embed_color" := Text("#3498db"),
      "ticket_title" := Text("Оставьте свой отзыв"),
      "ticket_subtitle" := Text("С вами мы становимся лучше"),
      "button_label" := Text("Оставить отзыв"),
      "button_color" := Text("primary"),
      "ticket_message" := Text("📝 Пожалуйста, напишите ваш отзыв в этот канал.\n\nАдминистрация рассмотрит его в ближайшее время."),
      "welcome_message" := Text("🎫 Добро пожаловать в тикет поддержки! Опишите вашу проблему или оставьте отзыв.")
    ]
  }

  /** A guild id as callers may pass it: a number or its text. */
  datatype GuildRef = GuildNumber(n: int) | GuildText(s: string)

  /** str(guild_id): the key a guild's record is filed under. */
  function GuildKey(guild: GuildRef): string
  {
    match guild
    case GuildNumber(n) => Decimal.IntToDecimal(n)
    case GuildText(s) => s
  }

  /** A number and its decimal text address the same record. */
  lemma NumberAndTextShareKey(n: int)
    ensures GuildKey(GuildNumber(n)) == GuildKey(GuildText(Decimal.IntToDecimal(n)))
    ensures Decimal.ParseInt(GuildKey(GuildNumber(n))) == Some(n)
  {
    Decimal.ParseIntOfIntToDecimal(n);
  }

  /** Different numeric guild ids never share a record. */
  lemma DistinctGuildsDistinctKeys(a: int, b: int)
    requires a != b
    ensures GuildKey(GuildNumber(a)) != GuildKey(GuildNumber(b))
  {
    Decimal.IntToDecimalInjective(a, b);
  }

  /** dict.update: every updated key takes the new value, every other key keeps its value. */
  function Merge(record: Settings, updates: Settings): (r: Settings)
    ensures r.Keys == record.Keys + updates.Keys
    ensures forall k :: k in updates ==> r[k] == updates[k]
    ensures forall k :: k in record && k !in updates ==> r[k] == record[k]
  {
    record + updates
  }

  /** The store after the lazy insertion: a copy of the template for `key` if it has no record yet. */
  function WithRecord(store: map<string, Settings>, template: Settings, key: string): (r: map<string, Settings>)
    ensures r.Keys == store.Keys + {key}
    ensures forall k :: k in store ==> r[k] == store[k]
    ensures key !in store ==> r[key] == template
  {
    if key in store then store else store[key := template]
  }

  /** The store after merging `updates` into the record of `key`, created from the template if missing. */
  function Updated(store: map<string, Settings>, template: Settings, key: string, updates: Settings): (r: map<string, Settings>)
    ensures r.Keys == store.Keys + {key}
    ensures r[key] == Merge(if key in store then store[key] else template, updates)
    ensures forall k :: k in store && k != key ==> r[k] == store[k]
  {
    var withRecord := WithRecord(store, template, key);
    withRecord[key := Merge(withRecord[key], updates)]
  }

  /** Reading a guild's settings a second time changes nothing more. */
  lemma GetIsIdempotent(store: map<string, Settings>, template: Settings, key: string)
    ensures WithRecord(WithRecord(store, template, key), template, key) == WithRecord(store, template, key)
  {
  }

  /** Reading before updating makes no difference to the update. */
  lemma GetThenUpdate(store: map<string, Settings>, template: Settings, key: string, updates: Settings)
    ensures Updated(WithRecord(store, template, key), template, key, updates) == Updated(store, template, key, updates)
  {
  }

  /** An empty update still creates the record and leaves it as it was. */
  lemma EmptyUpdateIsGet(store: map<string, Settings>, template: Settings, key: string)
    ensures Updated(store, template, key, map[]) == WithRecord(store, template, key)
  {
    var r := WithRecord(store, template, key);
    assert Merge(r[key], map[]) == r[key];
  }

  /** Updates of the same guild compose as one merged update, the later value winning. */
  lemma UpdatesCompose(store: map<string, Settings>, template: Settings, key: string, first: Settings, second: Settings)
    ensures Updated(Updated(store, template, key, first), template, key, second) ==
            Updated(store, template, key, Merge(first, second))
  {
    var base := if key in store then store[key] else template;
    MergeAssociative(base, first, second);
    var lhs := Updated(Updated(store, template, key, first), template, key, second);
    var rhs := Updated(store, template, key, Merge(first, second));
    assert lhs.Keys == rhs.Keys;
    assert forall k :: k in lhs ==> lhs[k] == rhs[k];
  }

  lemma MergeAssociative(a: Settings, b: Settings, c: Settings)
    ensures Merge(Merge(a, b), c) == Merge(a, Merge(b, c))
  {
  }

  /** The in-memory settings of the bot: the default template and the records per guild. */
  class Config {
    const defaultSettings: Settings
    var guildSettings: map<string, Settings>

    /**
     * The template is the stored one when a configuration was found, otherwise
     * the built-in one; the guild records are whatever was stored (none when
     * no file was found).
     */
    constructor (storedTemplate: Option<Settings>, storedGuilds: map<string, Settings>)
      ensures defaultSettings == (if storedTemplate.Some? then storedTemplate.value else BuiltInDefaults())
      ensures guildSettings == storedGuilds
    {
      defaultSettings := if storedTemplate.Some? then storedTemplate.value else BuiltInDefaults();
      guildSettings := storedGuilds;
    }

    /** The guild's record, inserted as a copy of the template on first access. */
    method GetGuildSettings(guild: GuildRef) returns (settings: Settings)
      modifies this
      ensures guildSettings == WithRecord(old(guildSettings), defaultSettings, GuildKey(guild))
      ensures settings == guildSettings[GuildKey(guild)]
      ensures GuildKey(guild) in old(guildSettings) ==> settings == old(guildSettings)[GuildKey(guild)]
      ensures GuildKey(guild) !in old(guildSettings) ==> settings == defaultSettings
    {
      var key := GuildKey(guild);
      if key !in guildSettings {
        guildSettings := guildSettings[key := defaultSettings];
      }
      settings := guildSettings[key];
    }

    /** Merges `updates` into the guild's record (created from the template first if missing). */
    method UpdateGuildSettings(guild: GuildRef, updates: Settings) returns (settings: Settings)
      modifies this
      ensures guildSettings == Updated(old(guildSettings), defaultSettings, GuildKey(guild), updates)
      ensures settings == guildSettings[GuildKey(guild)]
    {
      var key := GuildKey(guild);
      if key !in guildSettings {
        guildSettings := guildSettings[key := defaultSettings];
      }
      guildSettings := guildSettings[key := Merge(guildSettings[key], updates)];
      settings := guildSettings[key];
    }
  }

  /**
   * Updating one guild and then reading a guild that has no record yet hands
   * the second guild the template unaltered, so the update did not leak into
   * the template.
   */
  method UpdateThenFirstRead(config: Config, updated: GuildRef, updates: Settings, other: GuildRef)
    returns (otherSettings: Settings)
    requires GuildKey(other) != GuildKey(updated) && GuildKey(other) !in config.guildSettings
    modifies config
    ensures otherSettings == config.defaultSettings
  {
    var _ := config.UpdateGuildSettings(updated, updates);
    otherSettings := config.GetGuildSettings(other);
  }
}
