/**
 * The settings forms: how a submitted form becomes a partial settings update
 * that is merged into the guild's record, and how a stored channel id is
 * rendered as a mention.
 */
module SetupViews {
  import opened Platform
  import opened ConfigHandler

  /** The main settings form as submitted: four optional ids and the required admin role name. */
  datatype MainSettingsForm = MainSettingsForm(
    ticketCategory: string,
    closedCategory: string,
    logChannel: string,
    publishChannel: string,
    adminRole: string)

  /** The interface form as submitted: four required texts. */
  datatype InterfaceSettingsForm = InterfaceSettingsForm(
    ticketTitle: string,
    ticketSubtitle: string,
    buttonLabel: string,
    embedColor: string)

  /** The setting names of the main form's optional id fields, in form order. */
  const IdKeys: seq<string> := ["ticket_category_id", "closed_category_id", "log_channel_id", "publish_channel_id"]

  /** The form's value for the i-th id field. */
  function IdInput(form: MainSettingsForm, i: nat): string
    requires i < |IdKeys|
  {
    match i
    case 0 => form.ticketCategory
    case 1 => form.closedCategory
    case 2 => form.logChannel
    case _ => form.publishChannel
  }

  /**
   * What the main form's update consists of: the admin role name always, and
   * each id field under its setting name exactly when it was filled in.
   */
  ghost predicate IsMainUpdate(form: MainSettingsForm, updates: Settings)
  {
    && (forall k :: k in updates ==> k == "admin_role_name" || k in IdKeys)
    && "admin_role_name" in updates && updates["admin_role_name"] == Text(form.adminRole)
    && forall i :: 0 <= i < |IdKeys| ==>
         (IdKeys[i] in updates <==> IdInput(form, i) != "") &&
         (IdKeys[i] in updates ==> updates[IdKeys[i]] == Text(IdInput(form, i)))
  }

  /** The description pins the update down: two updates that fit the same form are equal. */
  lemma MainUpdateIsUnique(form: MainSettingsForm, a: Settings, b: Settings)
    requires IsMainUpdate(form, a) && IsMainUpdate(form, b)
    ensures a == b
  {
  }

  /** The main form's submit handler building its update entry by entry. */
  method BuildMainSettingsUpdate(form: MainSettingsForm) returns (updates: Settings)
    ensures IsMainUpdate(form, updates)
  {
    updates := map[];
    if form.ticketCategory != "" {
      updates := updates["ticket_category_id" := Text(form.ticketCategory)];
    }
    if form.closedCategory != "" {
      updates := updates["closed_category_id" := Text(form.closedCategory)];
    }
    if form.logChannel != "" {
      updates := updates["log_channel_id" := Text(form.logChannel)];
    }
    if form.publishChannel != "" {
      updates := updates["publish_channel_id" := Text(form.publishChannel)];
    }
    updates := updates["admin_role_name" := Text(form.adminRole)];
  }

  /**
   * Merged into a guild's record, the main form overwrites the filled-in ids
   * and the admin role name, and a blank id field keeps the guild's previous
   * value (or the template's, for a guild without a record).
   */
  lemma MainUpdateMerged(
    store: map<string, Settings>, template: Settings, key: string, form: MainSettingsForm, updates: Settings, i: nat)
    requires IsMainUpdate(form, updates) && i < |IdKeys|
    ensures var before := if key in store then store[key] else template;
      var after := Updated(store, template, key, updates)[key];
      && Get(after, "admin_role_name") == Text(form.adminRole)
      && (IdInput(form, i) == "" ==> Get(after, IdKeys[i]) == Get(before, IdKeys[i]))
      && (IdInput(form, i) != "" ==> Get(after, IdKeys[i]) == Text(IdInput(form, i)))
  {
  }

  /** Every other setting of the guild's record, the interface texts among them, is left as it was. */
  lemma MainUpdateKeepsOtherSettings(
    store: map<string, Settings>, template: Settings, key: string, form: MainSettingsForm, updates: Settings, k: string)
    requires IsMainUpdate(form, updates)
    requires k != "admin_role_name" && k !in IdKeys
    ensures var before := if key in store then store[key] else template;
      Get(Updated(store, template, key, updates)[key], k) == Get(before, k)
  {
  }

  /** Submitting the main form: build the update, merge it into the guild's record, confirm. */
  method SubmitMainSettings(config: Config, guildId: int, form: MainSettingsForm)
    returns (updates: Settings, effects: seq<Effect>)
    modifies config
    ensures IsMainUpdate(form, updates)
    ensures config.guildSettings == Updated(old(config.guildSettings), config.defaultSettings, GuildKey(GuildNumber(guildId)), updates)
    ensures effects == [Respond(MainSettingsSaved)]
  {
    updates := BuildMainSettingsUpdate(form);
    var _ := config.UpdateGuildSettings(GuildNumber(guildId), updates);
    effects := [Respond(MainSettingsSaved)];
  }

  /** The setting names the interface form writes. */
  const InterfaceKeys: set<string> := {"ticket_title", "ticket_subtitle", "button_label", "embed_color"}

  /** The interface form's update: all four texts, under their setting names, and nothing else. */
  function InterfaceUpdate(form: InterfaceSettingsForm): (updates: Settings)
    ensures updates.Keys == InterfaceKeys
    ensures Get(updates, "ticket_title") == Text(form.ticketTitle)
    ensures Get(updates, "ticket_subtitle") == Text(form.ticketSubtitle)
    ensures Get(updates, "button_label") == Text(form.buttonLabel)
    ensures Get(updates, "embed_color") == Text(form.embedColor)
  {
    map[
      "ticket_title" := Text(form.ticketTitle),
      "ticket_subtitle" := Text(form.ticketSubtitle),
      "button_label" := Text(form.buttonLabel),
      "embed_color" := Text(form.embedColor)
    ]
  }

  /** The interface form never touches the ids or the admin role name. */
  lemma InterfaceUpdateKeepsMainSettings(
    store: map<string, Settings>, template: Settings, key: string, form: InterfaceSettingsForm, k: string)
    requires k == "admin_role_name" || k in IdKeys
    ensures var before := if key in store then store[key] else template;
      Get(Updated(store, template, key, InterfaceUpdate(form))[key], k) == Get(before, k)
  {
  }

  /** Submitting the same interface form twice leaves the store as one submission did. */
  lemma InterfaceResubmitIsIdempotent(store: map<string, Settings>, template: Settings, key: string, form: InterfaceSettingsForm)
    ensures var once := Updated(store, template, key, InterfaceUpdate(form));
      Updated(once, template, key, InterfaceUpdate(form)) == once
  {
    var u := InterfaceUpdate(form);
    UpdatesCompose(store, template, key, u, u);
    assert Merge(u, u) == u;
  }

  /** Submitting the interface form: merge the four texts into the guild's record, confirm. */
  method SubmitInterfaceSettings(config: Config, guildId: int, form: InterfaceSettingsForm) returns (effects: seq<Effect>)
    modifies config
    ensures config.guildSettings ==
      Updated(old(config.guildSettings), config.defaultSettings, GuildKey(GuildNumber(guildId)), InterfaceUpdate(form))
    ensures effects == [Respond(InterfaceSettingsSaved)]
  {
    var _ := config.UpdateGuildSettings(GuildNumber(guildId), InterfaceUpdate(form));
    effects := [Respond(InterfaceSettingsSaved)];
  }

  const NotConfigured: string := "Не настроено"

  /** A stored channel or category id as shown in the settings overview. */
  function FormatChannel(v: Value): (s: string)
    ensures !Truthy(v) ==> s == NotConfigured
    ensures Truthy(v) ==> |s| == |v.s| + 3 && s[..2] == "<#" && s[2..|s| - 1] == v.s && s[|s| - 1] == '>'
  {
    if !Truthy(v) then NotConfigured else "<#" + v.s + ">"
  }

  /**
   * Two stored values render the same exactly when both are unset, or both
   * are set to the same text: the overview tells configured ids apart and
   * never shows a configured id as unset.
   */
  lemma FormatChannelDistinguishes(v: Value, w: Value)
    ensures FormatChannel(v) == FormatChannel(w) <==>
      (!Truthy(v) && !Truthy(w)) || (Truthy(v) && Truthy(w) && v.s == w.s)
  {
  }
}
