/**
 * Channel and plugin enablement: `applyPluginAutoEnable({config, env})`
 * (src/config/plugin-auto-enable.test.ts).
 *
 * The resolver is a pure function from a configuration and the process
 * environment to a new configuration plus a change log. Its implementation
 * file is not part of this model: `Apply` below is a reference definition
 * of the rules, and the lemmas state what the tests assert of it, in general
 * form and on the tests' own configurations.
 *
 * A channel block or plugin entry keeps its other fields as an opaque
 * `settings` map; only `enabled` is ever touched. The change log is the set
 * of names that were switched on (each line of the log names one of them).
 */
module PluginAutoEnable {
  import opened Wrappers

  datatype ChannelBlock = ChannelBlock(settings: map<string, string>, enabled: Option<bool>)

  datatype PluginEntry = PluginEntry(settings: map<string, string>, enabled: Option<bool>)

  /** `plugins`: the global switch, the optional allow list, the deny list and the per-plugin entries. */
  datatype PluginsConfig = PluginsConfig(
    enabled: Option<bool>,
    allow: Option<seq<string>>,
    deny: seq<string>,
    entries: map<string, PluginEntry>)

  datatype AuthProfile = AuthProfile(provider: string, mode: string)

  /** The sections of the configuration the resolver reads: `channels`, `plugins`, `auth.profiles`. */
  datatype Config = Config(
    channels: map<string, ChannelBlock>,
    plugins: PluginsConfig,
    authProfiles: map<string, AuthProfile>)

  datatype Outcome = Outcome(config: Config, changes: set<string>)

  type Env = map<string, string>

  // ------------------------------------------------------------ fixed tables

  /** The channels shipped first-class, in catalogue order; they are switched through `channels.<n>.enabled`. */
  const BuiltInChannelOrder: seq<string> := ["telegram", "discord", "irc", "slack", "imessage"]

  const BuiltIns: set<string> := set n | n in BuiltInChannelOrder

  /** Channels that count as configured when all of the listed environment variables are set. */
  const EnvDetection: map<string, seq<string>> := map["irc" := ["IRC_HOST", "IRC_NICK"]]

  /** `preferred` and `suppressed` serve the same transport; the preferred one wins while it is active. */
  datatype PreferRule = PreferRule(preferred: string, suppressed: string)

  const PreferOver: set<PreferRule> := {PreferRule("bluebubbles", "imessage")}

  /** Providers whose auth profiles bring a `<provider>-auth` plugin. */
  const AuthPluginProviders: set<string> := {"google-antigravity"}

  function AuthPluginId(provider: string): string {
    provider + "-auth"
  }

  // ---------------------------------------------------------------- the rules

  predicate EnvReady(env: Env, channel: string)
    requires channel in EnvDetection
  {
    forall k :: k in EnvDetection[channel] ==> k in env && env[k] != ""
  }

  /** The channel has a config block, or the environment supplies it. */
  predicate Configured(cfg: Config, env: Env, n: string) {
    n in cfg.channels || (n in EnvDetection && EnvReady(env, n))
  }

  function AuthPlugins(cfg: Config): set<string> {
    set k | k in cfg.authProfiles && cfg.authProfiles[k].provider in AuthPluginProviders
      :: AuthPluginId(cfg.authProfiles[k].provider)
  }

  /** Every name the resolver considers switching on. */
  function Candidates(cfg: Config, env: Env): set<string> {
    cfg.channels.Keys + (set n | n in EnvDetection && EnvReady(env, n)) + AuthPlugins(cfg)
  }

  predicate Denied(cfg: Config, n: string) {
    n in cfg.plugins.deny
  }

  /** `enabled: false` on the channel block or on the plugin entry. */
  predicate ExplicitlyDisabled(cfg: Config, n: string) {
    (n in cfg.channels && cfg.channels[n].enabled == Some(false))
    || (n in cfg.plugins.entries && cfg.plugins.entries[n].enabled == Some(false))
  }

  predicate Active(cfg: Config, n: string) {
    !Denied(cfg, n) && !ExplicitlyDisabled(cfg, n)
  }

  /** The switch that turns `n` on: the channel block for a built-in channel, the plugin entry otherwise. */
  function Switch(cfg: Config, n: string): Option<bool> {
    if n in BuiltIns then
      if n in cfg.channels then cfg.channels[n].enabled else None
    else
      if n in cfg.plugins.entries then cfg.plugins.entries[n].enabled else None
  }

  predicate Suppressed(cfg: Config, env: Env, n: string) {
    exists r :: r in PreferOver && r.suppressed == n && Configured(cfg, env, r.preferred) && Active(cfg, r.preferred)
  }

  /** The names this pass switches on. */
  function ToEnable(cfg: Config, env: Env): set<string> {
    set n | n in Candidates(cfg, env) && Active(cfg, n) && Switch(cfg, n) != Some(true) && !Suppressed(cfg, env, n)
  }

  function EnableChannels(channels: map<string, ChannelBlock>, on: set<string>): map<string, ChannelBlock> {
    map n | n in channels.Keys + (on * BuiltIns) ::
      if n in on * BuiltIns then
        if n in channels then channels[n].(enabled := Some(true)) else ChannelBlock(map[], Some(true))
      else channels[n]
  }

  function EnableEntries(entries: map<string, PluginEntry>, on: set<string>): map<string, PluginEntry> {
    map n | n in entries.Keys + (on - BuiltIns) ::
      if n in on - BuiltIns then
        if n in entries then entries[n].(enabled := Some(true)) else PluginEntry(map[], Some(true))
      else entries[n]
  }

  /** The names of `order`, in order, that are switched on and not yet allowed. */
  function NewlyAllowed(order: seq<string>, on: set<string>, allowed: seq<string>): (r: seq<string>)
    ensures |r| <= |order|
  {
    if order == [] then []
    else (if order[0] in on && order[0] !in allowed then [order[0]] else []) + NewlyAllowed(order[1..], on, allowed)
  }

  lemma {:induction false} NewlyAllowedMembers(order: seq<string>, on: set<string>, allowed: seq<string>)
    ensures forall n :: n in NewlyAllowed(order, on, allowed) <==> n in order && n in on && n !in allowed
  {
    if order != [] {
      NewlyAllowedMembers(order[1..], on, allowed);
      assert forall n :: n in order <==> n == order[0] || n in order[1..];
    }
  }

  function ExtendAllow(allow: Option<seq<string>>, on: set<string>): Option<seq<string>> {
    match allow
    case None => None
    case Some(xs) => Some(xs + NewlyAllowed(BuiltInChannelOrder, on, xs))
  }

  /** `applyPluginAutoEnable`. */
  function Apply(cfg: Config, env: Env): (out: Outcome)
    ensures out.config.authProfiles == cfg.authProfiles
    ensures out.config.plugins.enabled == cfg.plugins.enabled && out.config.plugins.deny == cfg.plugins.deny
  {
    if cfg.plugins.enabled == Some(false) then Outcome(cfg, {})
    else
      var on := ToEnable(cfg, env);
      var plugins := cfg.plugins.(allow := ExtendAllow(cfg.plugins.allow, on),
                                  entries := EnableEntries(cfg.plugins.entries, on));
      Outcome(Config(EnableChannels(cfg.channels, on), plugins, cfg.authProfiles), on)
  }

  // ---------------------------------------------------------- general rules

  /** Both switches of `n` and its channel block are as they were. */
  predicate Untouched(before: Config, after: Config, n: string) {
    (n in after.channels <==> n in before.channels)
    && (n in after.channels ==> after.channels[n] == before.channels[n])
    && (n in after.plugins.entries <==> n in before.plugins.entries)
    && (n in after.plugins.entries ==> after.plugins.entries[n] == before.plugins.entries[n])
  }

  /** A name the change log does not mention keeps its channel block and its plugin entry. */
  lemma UnchangedUnlessLogged(cfg: Config, env: Env, n: string)
    ensures n !in Apply(cfg, env).changes ==> Untouched(cfg, Apply(cfg, env).config, n)
  {
  }

  /**
   * The change log lists exactly the names whose switch went from not-on to on:
   * a built-in channel through `channels.<n>.enabled` with its plugin entry
   * untouched, any other name through `plugins.entries.<n>.enabled` with its
   * channel block untouched. Other settings of the block or entry are kept.
   */
  lemma LoggedMeansSwitchedOn(cfg: Config, env: Env, n: string)
    requires n in Apply(cfg, env).changes
    ensures Switch(cfg, n) != Some(true) && Switch(Apply(cfg, env).config, n) == Some(true)
    ensures n in BuiltIns ==>
      n in Apply(cfg, env).config.channels
      && (n in cfg.channels ==> Apply(cfg, env).config.channels[n] == cfg.channels[n].(enabled := Some(true)))
      && (n in Apply(cfg, env).config.plugins.entries <==> n in cfg.plugins.entries)
      && (n in cfg.plugins.entries ==> Apply(cfg, env).config.plugins.entries[n] == cfg.plugins.entries[n])
    ensures n !in BuiltIns ==>
      n in Apply(cfg, env).config.plugins.entries
      && (n in cfg.plugins.entries ==>
            Apply(cfg, env).config.plugins.entries[n] == cfg.plugins.entries[n].(enabled := Some(true)))
      && (n in Apply(cfg, env).config.channels <==> n in cfg.channels)
      && (n in cfg.channels ==> Apply(cfg, env).config.channels[n] == cfg.channels[n])
  {
  }

  /** Only configured channels and the plugins of auth profiles are ever switched on. */
  lemma LoggedOnlyIfConfigured(cfg: Config, env: Env, n: string)
    ensures n in Apply(cfg, env).changes ==> (Configured(cfg, env, n) || n in AuthPlugins(cfg)) && Active(cfg, n)
  {
  }

  /** With `plugins.enabled: false` the configuration comes back as it was and nothing is logged. */
  lemma GlobalOffIsNoOp(cfg: Config, env: Env)
    requires cfg.plugins.enabled == Some(false)
    ensures Apply(cfg, env) == Outcome(cfg, {})
  {
  }

  /** An explicit `enabled: false`, or a deny-list entry, is never overridden and never logged. */
  lemma InactiveNeverSwitched(cfg: Config, env: Env, n: string)
    requires !Active(cfg, n)
    ensures n !in Apply(cfg, env).changes
    ensures Untouched(cfg, Apply(cfg, env).config, n)
  {
  }

  /** An explicit `enabled: true` is left as it is and not logged again. */
  lemma ExplicitEnableKept(cfg: Config, env: Env, n: string)
    requires Switch(cfg, n) == Some(true)
    ensures n !in Apply(cfg, env).changes
    ensures Untouched(cfg, Apply(cfg, env).config, n)
    ensures Switch(Apply(cfg, env).config, n) == Some(true)
  {
  }

  /**
   * A configured, active, unsuppressed channel is switched on when the global
   * switch is not off: a built-in one in `channels`, with no plugin entry
   * created, any other one in `plugins.entries`.
   */
  lemma ConfiguredChannelEnabled(cfg: Config, env: Env, n: string)
    requires cfg.plugins.enabled != Some(false)
    requires Configured(cfg, env, n) && Active(cfg, n) && !Suppressed(cfg, env, n)
    ensures Switch(Apply(cfg, env).config, n) == Some(true)
    ensures n in Apply(cfg, env).changes <==> Switch(cfg, n) != Some(true)
    ensures n in BuiltIns ==> (n in Apply(cfg, env).config.plugins.entries <==> n in cfg.plugins.entries)
  {
    assert n in Candidates(cfg, env);
  }

  /** IRC counts as configured when `IRC_HOST` and `IRC_NICK` are both set, with no `channels.irc` block. */
  lemma IrcConfiguredFromEnv(cfg: Config, env: Env)
    requires "IRC_HOST" in env && env["IRC_HOST"] != ""
    requires "IRC_NICK" in env && env["IRC_NICK"] != ""
    ensures Configured(cfg, env, "irc")
  {
  }

  /**
   * The allow list, when present, keeps its items in their order and gains,
   * after them, exactly the built-in channels switched on in this pass that it
   * did not already hold. An absent allow list stays absent.
   */
  lemma AllowListExtended(cfg: Config, env: Env)
    requires cfg.plugins.enabled != Some(false)
    ensures cfg.plugins.allow.None? ==> Apply(cfg, env).config.plugins.allow.None?
    ensures cfg.plugins.allow.Some? ==>
      var xs := cfg.plugins.allow.value;
      var out := Apply(cfg, env);
      out.config.plugins.allow.Some?
      && |xs| <= |out.config.plugins.allow.value|
      && out.config.plugins.allow.value[..|xs|] == xs
      && forall n :: n in out.config.plugins.allow.value[|xs|..] <==> n in BuiltIns && n in out.changes && n !in xs
  {
    if cfg.plugins.allow.Some? {
      var xs := cfg.plugins.allow.value;
      var added := NewlyAllowed(BuiltInChannelOrder, ToEnable(cfg, env), xs);
      NewlyAllowedMembers(BuiltInChannelOrder, ToEnable(cfg, env), xs);
      assert Apply(cfg, env).config.plugins.allow.value == xs + added;
      assert (xs + added)[|xs|..] == added;
    }
  }

  /** Every profile of a provider in the auth table switches on the `<provider>-auth` plugin entry. */
  lemma AuthProfileEnablesPlugin(cfg: Config, env: Env, key: string)
    requires cfg.plugins.enabled != Some(false)
    requires key in cfg.authProfiles && cfg.authProfiles[key].provider in AuthPluginProviders
    requires Active(cfg, AuthPluginId(cfg.authProfiles[key].provider))
    ensures var id := AuthPluginId(cfg.authProfiles[key].provider);
      id in Apply(cfg, env).config.plugins.entries && Apply(cfg, env).config.plugins.entries[id].enabled == Some(true)
  {
    var id := AuthPluginId(cfg.authProfiles[key].provider);
    assert id == "google-antigravity-auth";
    assert id !in BuiltIns;
    assert id in AuthPlugins(cfg);
    assert !Suppressed(cfg, env, id);
  }

  /**
   * When the preferred member of a pair is configured and active, the other
   * member is neither switched on nor logged: its block and entry stay as they were.
   */
  lemma PreferredSuppressesOther(cfg: Config, env: Env, r: PreferRule)
    requires r in PreferOver
    requires Configured(cfg, env, r.preferred) && Active(cfg, r.preferred)
    ensures r.suppressed !in Apply(cfg, env).changes
    ensures Untouched(cfg, Apply(cfg, env).config, r.suppressed)
  {
    assert Suppressed(cfg, env, r.suppressed);
  }

  /**
   * When the preferred member is explicitly disabled or denied, the other
   * member, if configured, active and not yet on, is switched on and logged.
   */
  lemma OtherEnabledWhenPreferredInactive(cfg: Config, env: Env, r: PreferRule)
    requires r in PreferOver
    requires cfg.plugins.enabled != Some(false)
    requires !Active(cfg, r.preferred)
    requires Configured(cfg, env, r.suppressed) && Active(cfg, r.suppressed)
    requires Switch(cfg, r.suppressed) != Some(true)
    ensures r.suppressed in Apply(cfg, env).changes
    ensures Switch(Apply(cfg, env).config, r.suppressed) == Some(true)
  {
    assert !Suppressed(cfg, env, r.suppressed);
    assert r.suppressed in Candidates(cfg, env);
  }

  // ------------------------------------------------- the tests' configurations

  const NoPlugins: PluginsConfig := PluginsConfig(None, None, [], map[])
  const NoEnv: Env := map[]

  function Block(key: string, value: string): ChannelBlock {
    ChannelBlock(map[key := value], None)
  }

  /** The BlueBubbles block of the tests: a server URL and a password. */
  const BlueBubblesBlock: ChannelBlock :=
    ChannelBlock(map["serverUrl" := "http://localhost:1234", "password" := "x"], None)

  /** Slack configured, allow list `["telegram"]`. */
  const SlackWithAllowList: Config :=
    Config(map["slack" := Block("botToken", "x")], NoPlugins.(allow := Some(["telegram"])), map[])

  lemma SlackEnabled()
    ensures var out := Apply(SlackWithAllowList, NoEnv);
      "slack" in out.config.channels && out.config.channels["slack"].enabled == Some(true)
      && "slack" !in out.config.plugins.entries
      && "slack" in out.changes
  {
    ConfiguredChannelEnabled(SlackWithAllowList, NoEnv, "slack");
  }

  lemma SlackAllowed()
    ensures Apply(SlackWithAllowList, NoEnv).config.plugins.allow == Some(["telegram", "slack"])
  {
    var out := Apply(SlackWithAllowList, NoEnv);
    SlackOnlyChange();
    assert out.config.plugins.allow == Some(["telegram"] + NewlyAllowed(BuiltInChannelOrder, {"slack"}, ["telegram"]));
    OnlySlackAllowed({"slack"});
    assert ["telegram"] + ["slack"] == ["telegram", "slack"];
  }

  lemma SlackOnlyChange()
    ensures Apply(SlackWithAllowList, NoEnv).changes == {"slack"}
  {
    var cfg := SlackWithAllowList;
    SlackEnabled();
    assert !EnvReady(NoEnv, "irc") by {
      assert "IRC_HOST" in EnvDetection["irc"];
    }
    forall n | n in Apply(cfg, NoEnv).changes
      ensures n == "slack"
    {
      LoggedOnlyIfConfigured(cfg, NoEnv, n);
    }
  }

  lemma OnlySlackAllowed(on: set<string>)
    requires "slack" in on && "discord" !in on && "irc" !in on && "imessage" !in on
    ensures NewlyAllowed(BuiltInChannelOrder, on, ["telegram"]) == ["slack"]
  {
    var t := ["telegram"];
    assert NewlyAllowed(["imessage"], on, t) == [];
    assert NewlyAllowed(["slack", "imessage"], on, t) == ["slack"];
    assert NewlyAllowed(["irc", "slack", "imessage"], on, t) == ["slack"];
    assert NewlyAllowed(["discord", "irc", "slack", "imessage"], on, t) == ["slack"];
  }

  /** Slack with `enabled: false`: still off, no plugin entry, nothing logged. */
  lemma SlackExplicitlyDisabled()
    ensures var cfg := Config(map["slack" := ChannelBlock(map["botToken" := "x"], Some(false))], NoPlugins, map[]);
      var out := Apply(cfg, NoEnv);
      out.config.channels["slack"].enabled == Some(false)
      && "slack" !in out.config.plugins.entries
      && out.changes == {}
  {
    var cfg := Config(map["slack" := ChannelBlock(map["botToken" := "x"], Some(false))], NoPlugins, map[]);
    InactiveNeverSwitched(cfg, NoEnv, "slack");
    assert !EnvReady(NoEnv, "irc") by {
      assert "IRC_HOST" in EnvDetection["irc"];
    }
    forall n | n in Apply(cfg, NoEnv).changes
      ensures false
    {
      LoggedOnlyIfConfigured(cfg, NoEnv, n);
    }
  }

  /** Slack configured but `plugins.enabled: false`: nothing is switched on. */
  lemma SlackUnderGlobalOff()
    ensures var cfg := Config(map["slack" := Block("botToken", "x")], NoPlugins.(enabled := Some(false)), map[]);
      var out := Apply(cfg, NoEnv);
      out.config.channels["slack"].enabled == None
      && "slack" !in out.config.plugins.entries
      && out.changes == {}
  {
  }

  /** IRC from `IRC_HOST` and `IRC_NICK` alone. */
  lemma IrcEnabledFromEnv()
    ensures var env := map["IRC_HOST" := "irc.libera.chat", "IRC_NICK" := "openclaw-bot"];
      var out := Apply(Config(map[], NoPlugins, map[]), env);
      "irc" in out.config.channels && out.config.channels["irc"].enabled == Some(true)
      && "irc" !in out.config.plugins.entries
      && "irc" in out.changes
  {
    var env := map["IRC_HOST" := "irc.libera.chat", "IRC_NICK" := "openclaw-bot"];
    var cfg := Config(map[], NoPlugins, map[]);
    assert EnvReady(env, "irc");
    assert "irc" in Candidates(cfg, env);
    assert !Suppressed(cfg, env, "irc");
  }

  /** A `google-antigravity` auth profile. */
  lemma AntigravityAuthPluginEnabled()
    ensures var cfg := Config(map[], NoPlugins,
                              map["google-antigravity:default" := AuthProfile("google-antigravity", "oauth")]);
      var out := Apply(cfg, NoEnv);
      "google-antigravity-auth" in out.config.plugins.entries
      && out.config.plugins.entries["google-antigravity-auth"].enabled == Some(true)
  {
    var cfg := Config(map[], NoPlugins, map["google-antigravity:default" := AuthProfile("google-antigravity", "oauth")]);
    assert AuthPluginId("google-antigravity") == "google-antigravity-auth";
    assert Active(cfg, "google-antigravity-auth");
    AuthProfileEnablesPlugin(cfg, NoEnv, "google-antigravity:default");
  }

  /** Telegram and Discord configured: both are switched on in `channels`, neither gets a plugin entry. */
  lemma TelegramAndDiscordEnabled()
    ensures var cfg := Config(map["telegram" := Block("botToken", "telegram-token"),
                                  "discord" := Block("token", "discord-token")],
                              NoPlugins, map[]);
      var out := Apply(cfg, NoEnv);
      out.config.channels["telegram"].enabled == Some(true)
      && out.config.channels["discord"].enabled == Some(true)
      && "telegram" !in out.config.plugins.entries
      && "discord" !in out.config.plugins.entries
  {
    var cfg := Config(map["telegram" := Block("botToken", "telegram-token"),
                          "discord" := Block("token", "discord-token")], NoPlugins, map[]);
    ConfiguredChannelEnabled(cfg, NoEnv, "telegram");
    ConfiguredChannelEnabled(cfg, NoEnv, "discord");
  }

  /** BlueBubbles alone configured: being no built-in channel, it is switched on in `plugins.entries`. */
  lemma BlueBubblesEntryEnabled()
    ensures var cfg := Config(map["bluebubbles" := BlueBubblesBlock], NoPlugins, map[]);
      var out := Apply(cfg, NoEnv);
      "bluebubbles" in out.config.plugins.entries
      && out.config.plugins.entries["bluebubbles"].enabled == Some(true)
  {
    var cfg := Config(map["bluebubbles" := BlueBubblesBlock], NoPlugins, map[]);
    ConfiguredChannelEnabled(cfg, NoEnv, "bluebubbles");
  }

  /** Telegram and BlueBubbles together: one through `channels`, one through `plugins.entries`. */
  lemma MixedChannelsEnabled()
    ensures var cfg := Config(map["telegram" := Block("botToken", "telegram-token"),
                                  "bluebubbles" := BlueBubblesBlock],
                              NoPlugins, map[]);
      var out := Apply(cfg, NoEnv);
      out.config.channels["telegram"].enabled == Some(true)
      && "telegram" !in out.config.plugins.entries
      && "bluebubbles" in out.config.plugins.entries
      && out.config.plugins.entries["bluebubbles"].enabled == Some(true)
  {
    var cfg := Config(map["telegram" := Block("botToken", "telegram-token"),
                          "bluebubbles" := BlueBubblesBlock], NoPlugins, map[]);
    ConfiguredChannelEnabled(cfg, NoEnv, "telegram");
    ConfiguredChannelEnabled(cfg, NoEnv, "bluebubbles");
  }

  /** BlueBubbles and iMessage both configured: only BlueBubbles is switched on. */
  lemma BlueBubblesPreferred()
    ensures var cfg := Config(map["bluebubbles" := BlueBubblesBlock,
                                  "imessage" := Block("cliPath", "/usr/local/bin/imsg")],
                              NoPlugins, map[]);
      var out := Apply(cfg, NoEnv);
      "bluebubbles" in out.config.plugins.entries
      && out.config.plugins.entries["bluebubbles"].enabled == Some(true)
      && "imessage" !in out.config.plugins.entries
      && out.config.channels["imessage"].enabled == None
      && "bluebubbles" in out.changes && "imessage" !in out.changes
  {
    var cfg := Config(map["bluebubbles" := BlueBubblesBlock,
                          "imessage" := Block("cliPath", "/usr/local/bin/imsg")], NoPlugins, map[]);
    ConfiguredChannelEnabled(cfg, NoEnv, "bluebubbles");
    PreferredSuppressesOther(cfg, NoEnv, PreferRule("bluebubbles", "imessage"));
  }

  /** BlueBubbles denied: iMessage is switched on and BlueBubbles gets no entry. */
  lemma IMessageEnabledWhenBlueBubblesDenied()
    ensures var cfg := Config(map["bluebubbles" := BlueBubblesBlock,
                                  "imessage" := Block("cliPath", "/usr/local/bin/imsg")],
                              NoPlugins.(deny := ["bluebubbles"]), map[]);
      var out := Apply(cfg, NoEnv);
      "bluebubbles" !in out.config.plugins.entries
      && out.config.channels["imessage"].enabled == Some(true)
  {
    var cfg := Config(map["bluebubbles" := BlueBubblesBlock,
                          "imessage" := Block("cliPath", "/usr/local/bin/imsg")], NoPlugins.(deny := ["bluebubbles"]), map[]);
    InactiveNeverSwitched(cfg, NoEnv, "bluebubbles");
    OtherEnabledWhenPreferredInactive(cfg, NoEnv, PreferRule("bluebubbles", "imessage"));
  }
  /** iMessage explicitly `enabled: true` next to BlueBubbles: kept on, no plugin entry for it. */
  lemma IMessageExplicitEnableKept()
    ensures var cfg := Config(map["bluebubbles" := BlueBubblesBlock,
                                  "imessage" := ChannelBlock(map["cliPath" := "/usr/local/bin/imsg"], Some(true))],
                              NoPlugins, map[]);
      var out := Apply(cfg, NoEnv);
      "bluebubbles" in out.config.plugins.entries
      && out.config.plugins.entries["bluebubbles"].enabled == Some(true)
      && out.config.channels["imessage"].enabled == Some(true)
      && "imessage" !in out.config.plugins.entries
  {
    var cfg := Config(map["bluebubbles" := BlueBubblesBlock,
                          "imessage" := ChannelBlock(map["cliPath" := "/usr/local/bin/imsg"], Some(true))], NoPlugins, map[]);
    ConfiguredChannelEnabled(cfg, NoEnv, "bluebubbles");
    ExplicitEnableKept(cfg, NoEnv, "imessage");
  }

  /** BlueBubbles with `plugins.entries.bluebubbles.enabled: false`: it stays off and iMessage is switched on. */
  lemma IMessageEnabledWhenBlueBubblesDisabled()
    ensures var cfg := Config(map["bluebubbles" := BlueBubblesBlock,
                                  "imessage" := Block("cliPath", "/usr/local/bin/imsg")],
                              NoPlugins.(entries := map["bluebubbles" := PluginEntry(map[], Some(false))]), map[]);
      var out := Apply(cfg, NoEnv);
      out.config.plugins.entries["bluebubbles"].enabled == Some(false)
      && out.config.channels["imessage"].enabled == Some(true)
      && "imessage" in out.changes
  {
    var cfg := Config(map["bluebubbles" := BlueBubblesBlock,
                          "imessage" := Block("cliPath", "/usr/local/bin/imsg")],
                      NoPlugins.(entries := map["bluebubbles" := PluginEntry(map[], Some(false))]), map[]);
    InactiveNeverSwitched(cfg, NoEnv, "bluebubbles");
    OtherEnabledWhenPreferredInactive(cfg, NoEnv, PreferRule("bluebubbles", "imessage"));
  }

  /** iMessage alone is switched on like any built-in channel. */
  lemma IMessageAloneEnabled()
    ensures var cfg := Config(map["imessage" := Block("cliPath", "/usr/local/bin/imsg")], NoPlugins, map[]);
      var out := Apply(cfg, NoEnv);
      out.config.channels["imessage"].enabled == Some(true)
      && "imessage" in out.changes
  {
    var cfg := Config(map["imessage" := Block("cliPath", "/usr/local/bin/imsg")], NoPlugins, map[]);
    assert !Suppressed(cfg, NoEnv, "imessage") by {
      assert !Configured(cfg, NoEnv, "bluebubbles");
    }
    ConfiguredChannelEnabled(cfg, NoEnv, "imessage");
  }
}
