/**
 * The composite address `"<chat>:topic:<thread>"` used by forum-style chats:
 * a parent address and a numeric thread id after a `:topic:` marker.
 */
module TopicAddress {
  import opened Wrappers

  const Marker: string := ":topic:"

  predicate IsDigit(c: char) {
    '0' <= c <= '9'
  }

  predicate AllDigits(s: string) {
    forall i :: 0 <= i < |s| ==> IsDigit(s[i])
  }

  /** The decimal value of a string of digits. */
  function DigitsValue(s: string): (n: nat)
    requires AllDigits(s)
  {
    if s == [] then 0 else 10 * DigitsValue(s[..|s| - 1]) + (s[|s| - 1] - '0') as nat
  }

  /** The decimal spelling of `n`, without leading zeros. */
  function DecimalString(n: nat): (s: string)
    ensures |s| > 0 && AllDigits(s)
  {
    var last := ['0' + (n % 10) as char];
    if n < 10 then last else DecimalString(n / 10) + last
  }

  lemma {:induction false} DecimalRoundTrip(n: nat)
    ensures DigitsValue(DecimalString(n)) == n
  {
    var s := DecimalString(n);
    if n >= 10 {
      DecimalRoundTrip(n / 10);
      assert s[..|s| - 1] == DecimalString(n / 10);
    }
  }

  /** The number of digits at the end of `s`. */
  function DigitSuffixLength(s: string): (k: nat)
    ensures k <= |s|
    ensures forall i :: |s| - k <= i < |s| ==> IsDigit(s[i])
    ensures k < |s| ==> !IsDigit(s[|s| - k - 1])
  {
    if s != [] && IsDigit(s[|s| - 1]) then 1 + DigitSuffixLength(s[..|s| - 1]) else 0
  }

  /**
   * Splits a composite address into its parent address and thread id: the
   * address must end in a non-empty run of digits preceded by the marker,
   * with a non-empty parent address before it.
   */
  function Parse(to: string): (r: Option<(string, nat)>)
    ensures r.Some? ==>
      var chat := r.value.0;
      |chat| > 0 && |chat| + |Marker| < |to|
      && var digits := to[|chat| + |Marker|..];
         AllDigits(digits) && to == chat + Marker + digits && DigitsValue(digits) == r.value.1
  {
    var k := DigitSuffixLength(to);
    var head := |to| - k;
    if k > 0 && head > |Marker| && to[head - |Marker|..head] == Marker then
      assert to == to[..head - |Marker|] + to[head - |Marker|..head] + to[head..];
      Some((to[..head - |Marker|], DigitsValue(to[head..])))
    else None
  }

  function Format(chat: string, thread: nat): string {
    chat + Marker + DecimalString(thread)
  }

  lemma {:induction false} DigitSuffixOfFormatted(chat: string, digits: string)
    requires |digits| > 0 && AllDigits(digits)
    ensures DigitSuffixLength(chat + Marker + digits) == |digits|
  {
    var s := chat + Marker + digits;
    assert s[|s| - |digits| - 1] == ':';
    assert s[|s| - |digits|..] == digits;
  }

  /** Every non-empty parent address, the marker and a non-empty run of digits
      parse back to that address and the value of the digits. */
  lemma ParseComplete(chat: string, digits: string)
    requires |chat| > 0 && |digits| > 0 && AllDigits(digits)
    ensures Parse(chat + Marker + digits) == Some((chat, DigitsValue(digits)))
  {
    var s := chat + Marker + digits;
    DigitSuffixOfFormatted(chat, digits);
    var head := |s| - |digits|;
    assert s[head - |Marker|..head] == Marker;
    assert s[..head - |Marker|] == chat;
    assert s[head..] == digits;
  }

  /** A formatted composite address parses back to the parent address and thread id it was made of. */
  lemma ParseFormat(chat: string, thread: nat)
    requires |chat| > 0
    ensures Parse(Format(chat, thread)) == Some((chat, thread))
  {
    ParseComplete(chat, DecimalString(thread));
    DecimalRoundTrip(thread);
  }
}

/**
 * Delivery-target resolution: `resolveDeliveryTarget(config, agentId, hint)`
 * (src/cron/isolated-agent/delivery-target.test.ts).
 *
 * The resolver reads the record of the agent's main session and the binding
 * table and writes nothing. Its implementation file is not part of this
 * model: `Resolve` below is a reference definition of the precedence rules,
 * and the lemmas state what the tests assert of it. The main session key and
 * the channel-selection step are collaborators, passed in as `mainKey` and
 * `selected`.
 */
module DeliveryTarget {
  import opened Wrappers
  import opened SessionRecords
  import TopicAddress

  /** `{agentId, match: {channel, accountId}}`. */
  datatype Binding = Binding(agentId: string, channel: string, accountId: Option<string>)

  /** What the caller proposes: a channel (possibly absent), an address and a thread id. */
  datatype Hint = Hint(channel: Option<string>, to: string, threadId: Option<int>)

  datatype Target = Target(channel: string, to: string, accountId: Option<string>, threadId: Option<int>)

  /** No channel in the hint and none from channel selection. */
  datatype ResolutionError = NoChannel

  predicate BindingMatches(b: Binding, agentId: string, channel: string) {
    b.agentId == agentId && b.channel == channel
  }

  /** The index of the first binding for `(agentId, channel)`, or `|bindings|` when there is none. */
  function FirstMatch(bindings: seq<Binding>, agentId: string, channel: string): (i: nat)
    ensures i <= |bindings|
    ensures i < |bindings| ==> BindingMatches(bindings[i], agentId, channel)
    ensures forall j :: 0 <= j < i ==> !BindingMatches(bindings[j], agentId, channel)
  {
    if bindings == [] then 0
    else if BindingMatches(bindings[0], agentId, channel) then 0
    else 1 + FirstMatch(bindings[1..], agentId, channel)
  }

  /** The account of the first binding for `(agentId, channel)`. */
  function BoundAccount(bindings: seq<Binding>, agentId: string, channel: string): Option<string> {
    var i := FirstMatch(bindings, agentId, channel);
    if i < |bindings| then bindings[i].accountId else None
  }

  /** The session's account, when it has one and last spoke on `channel`. */
  function SessionAccount(session: Option<SessionRecord>, channel: string): Option<string> {
    if session.Some? && session.value.lastAccountId.Some? && session.value.lastChannel == Some(channel)
    then session.value.lastAccountId
    else None
  }

  function ResolveAccount(session: Option<SessionRecord>, bindings: seq<Binding>, agentId: string, channel: string): Option<string> {
    if SessionAccount(session, channel).Some? then SessionAccount(session, channel)
    else BoundAccount(bindings, agentId, channel)
  }

  /**
   * The thread: the one embedded in a composite address, else the hint's,
   * else the one stored with the session when it last spoke to this very target.
   */
  function ResolveThread(session: Option<SessionRecord>, channel: string, hint: Hint): (t: Option<int>)
    ensures TopicAddress.Parse(hint.to).Some? ==> t == Some(TopicAddress.Parse(hint.to).value.1)
    ensures TopicAddress.Parse(hint.to).None? && hint.threadId.Some? ==> t == hint.threadId
    ensures TopicAddress.Parse(hint.to).None? && hint.threadId.None? && t.Some? ==>
      && session.Some? && session.value.lastChannel == Some(channel) && session.value.lastTo == Some(hint.to)
      && t == session.value.lastThreadId
  {
    match TopicAddress.Parse(hint.to)
    case Some((_, thread)) => Some(thread)
    case None =>
      if hint.threadId.Some? then hint.threadId
      else if session.Some? && session.value.lastChannel == Some(channel) && session.value.lastTo == Some(hint.to)
      then session.value.lastThreadId
      else None
  }

  function MainSession(store: Store, mainKey: string): Option<SessionRecord> {
    if mainKey in store then Some(store[mainKey]) else None
  }

  /** `resolveDeliveryTarget`; `selected` is what channel selection yields when the hint has no channel. */
  function Resolve(store: Store, mainKey: string, bindings: seq<Binding>, agentId: string, hint: Hint,
                   selected: Option<string>): (r: Result<Target, ResolutionError>)
    ensures r.Failure? <==> hint.channel.None? && selected.None?
    ensures r.Success? ==> r.value.to == hint.to
    ensures r.Success? && hint.channel.Some? ==> r.value.channel == hint.channel.value
    ensures r.Success? && hint.channel.None? ==> r.value.channel == selected.value
  {
    var channel := if hint.channel.Some? then hint.channel else selected;
    if channel.None? then Failure(NoChannel)
    else
      var session := MainSession(store, mainKey);
      Success(Target(channel.value, hint.to,
                     ResolveAccount(session, bindings, agentId, channel.value),
                     ResolveThread(session, channel.value, hint)))
  }

  // ------------------------------------------------------------- precedence

  /** A session that last spoke on the target channel with an account keeps that account, whatever the bindings say. */
  lemma SessionAccountWins(store: Store, mainKey: string, bindings: seq<Binding>, agentId: string, hint: Hint, account: string)
    requires hint.channel.Some?
    requires mainKey in store
    requires store[mainKey].lastAccountId == Some(account) && store[mainKey].lastChannel == hint.channel
    ensures Resolve(store, mainKey, bindings, agentId, hint, None).value.accountId == Some(account)
  {
  }

  /** Without a usable session account the first binding for `(agentId, channel)` supplies it, and none means none. */
  lemma BindingFallback(store: Store, mainKey: string, bindings: seq<Binding>, agentId: string, hint: Hint)
    requires hint.channel.Some?
    requires mainKey !in store || store[mainKey].lastAccountId.None? || store[mainKey].lastChannel != hint.channel
    ensures var r := Resolve(store, mainKey, bindings, agentId, hint, None).value;
      (forall i :: 0 <= i < |bindings| ==> !BindingMatches(bindings[i], agentId, hint.channel.value)) ==> r.accountId.None?
    ensures var r := Resolve(store, mainKey, bindings, agentId, hint, None).value;
      forall i :: 0 <= i < |bindings| && BindingMatches(bindings[i], agentId, hint.channel.value)
        && (forall j :: 0 <= j < i ==> !BindingMatches(bindings[j], agentId, hint.channel.value))
        ==> r.accountId == bindings[i].accountId
  {
    var ch := hint.channel.value;
    var k := FirstMatch(bindings, agentId, ch);
    forall i | 0 <= i < |bindings| && BindingMatches(bindings[i], agentId, ch)
        && (forall j :: 0 <= j < i ==> !BindingMatches(bindings[j], agentId, ch))
      ensures i == k
    {
    }
  }

  /**
   * A binding for another agent or another channel never supplies the
   * account: inserting one anywhere in the table changes nothing.
   */
  lemma {:induction false} NonMatchingBindingIgnored(xs: seq<Binding>, b: Binding, ys: seq<Binding>, agentId: string, channel: string)
    requires !BindingMatches(b, agentId, channel)
    ensures BoundAccount(xs + [b] + ys, agentId, channel) == BoundAccount(xs + ys, agentId, channel)
  {
    if xs == [] {
      assert (xs + [b] + ys)[1..] == xs + ys;
    } else {
      NonMatchingBindingIgnored(xs[1..], b, ys, agentId, channel);
      assert (xs + [b] + ys)[1..] == xs[1..] + [b] + ys;
      assert (xs + ys)[1..] == xs[1..] + ys;
      assert (xs + [b] + ys)[0] == (xs + ys)[0] == xs[0];
    }
  }

  /** A composite address yields its embedded thread id, overriding any stored one, and passes through unchanged. */
  lemma TopicThreadExtracted(store: Store, mainKey: string, bindings: seq<Binding>, agentId: string,
                             channel: Option<string>, chat: string, thread: nat, hintThread: Option<int>,
                             selected: Option<string>)
    requires |chat| > 0 && (channel.Some? || selected.Some?)
    ensures var hint := Hint(channel, TopicAddress.Format(chat, thread), hintThread);
      var r := Resolve(store, mainKey, bindings, agentId, hint, selected);
      r.Success? && r.value.to == hint.to && r.value.threadId == Some(thread)
  {
    TopicAddress.ParseFormat(chat, thread);
  }

  // ------------------------------------------------- the tests' situations

  const TelegramHint: Hint := Hint(Some("telegram"), "123456", None)

  /** No session record; one binding for agent-b on telegram. */
  lemma BoundAccountUsed()
    ensures Resolve(map[], "agent:main:main", [Binding("agent-b", "telegram", Some("account-b"))], "agent-b",
                    TelegramHint, None).value.accountId == Some("account-b")
  {
  }

  /** A session that last spoke on telegram through "session-account", and the same binding. */
  lemma SessionAccountPreserved()
    ensures var rec := SessionRecord("sess-1", 1000, Some("telegram"), Some("123456"), Some("session-account"),
                                     None, None, None);
      Resolve(map["agent:main:main" := rec], "agent:main:main", [Binding("agent-b", "telegram", Some("account-b"))],
              "agent-b", TelegramHint, None).value.accountId == Some("session-account")
  {
  }

  /** Neither a session record nor a binding. */
  lemma NoAccount()
    ensures Resolve(map[], "agent:main:main", [], "agent-b", TelegramHint, None).value.accountId == None
  {
  }

  /** Bindings for agent-a and agent-b: agent-b's account is used. */
  lemma OtherAgentIgnored()
    ensures Resolve(map[], "agent:main:main",
                    [Binding("agent-a", "telegram", Some("account-a")), Binding("agent-b", "telegram", Some("account-b"))],
                    "agent-b", TelegramHint, None).value.accountId == Some("account-b")
  {
    NonMatchingBindingIgnored([], Binding("agent-a", "telegram", Some("account-a")),
                              [Binding("agent-b", "telegram", Some("account-b"))], "agent-b", "telegram");
  }

  /** Only a discord binding while delivering on telegram. */
  lemma OtherChannelIgnored()
    ensures Resolve(map[], "agent:main:main", [Binding("agent-b", "discord", Some("discord-account"))], "agent-b",
                    TelegramHint, None).value.accountId == None
  {
  }

  /** A topic address on telegram while the session stored thread 999 of another chat. */
  lemma TopicThreadOverridesSession()
    ensures var rec := SessionRecord("main-session", 1, Some("telegram"), Some("-1001111111111:topic:999"), None,
                                     Some(999), None, None);
      var hint := Hint(Some("telegram"), "-1001234567890:topic:123", None);
      var r := Resolve(map["agent:main:main" := rec], "agent:main:main", [], "main", hint, None);
      r.Success? && r.value.channel == "telegram" && r.value.to == "-1001234567890:topic:123"
      && r.value.threadId == Some(123)
  {
    var rec := SessionRecord("main-session", 1, Some("telegram"), Some("-1001111111111:topic:999"), None, Some(999), None, None);
    assert TopicAddress.DecimalString(123) == "123" by {
      assert TopicAddress.DecimalString(1) == "1";
      assert TopicAddress.DecimalString(12) == "12";
    }
    assert TopicAddress.Format("-1001234567890", 123) == "-1001234567890:topic:123";
    TopicThreadExtracted(map["agent:main:main" := rec], "agent:main:main", [], "main", Some("telegram"), "-1001234567890", 123,
                         None, None);
  }
}
