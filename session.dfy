/**
 * Session affinity on inbound messages: `recordInboundSession`
 * (src/channels/session.test.ts).
 *
 * The recorder reads, updates and persists the record of one session key in
 * the shared session store. Its implementation file is not part of this
 * model: `Inbound` below is a reference definition of the update, and the
 * store's method is proved to perform exactly that update.
 *
 * Affinity rule: a message whose originating channel is an internal surface
 * (`webchat`) is recorded as metadata only; it never replaces the stored
 * route (`lastChannel`, `lastTo`, `lastAccountId`, `deliveryContext`), so
 * replies keep going to the external channel that last owned the session.
 */
module SessionRecorder {
  import opened Wrappers
  import opened SessionRecords

  /** The inbound message context: `Provider`, `Surface`, `OriginatingChannel`, `ChatType`, `Body`. */
  datatype InboundContext = InboundContext(
    provider: string,
    surface: string,
    originatingChannel: string,
    chatType: string,
    body: string)

  /** `updateLastRoute`: the route the message proposes for `sessionKey`. */
  datatype LastRoute = LastRoute(sessionKey: string, channel: string, to: string, accountId: Option<string>)

  /** One inbound message as the recorder receives it. */
  datatype InboundEvent = InboundEvent(
    sessionKey: string,
    ctx: InboundContext,
    route: Option<LastRoute>,
    now: int,
    freshSessionId: string)

  function RecordOr(store: Store, key: string, sessionId: string, now: int): SessionRecord {
    if key in store then store[key] else NewRecord(sessionId, now)
  }

  function Max(a: int, b: int): int {
    if a < b then b else a
  }

  /** The route is taken over only from an external channel proposing an external channel. */
  function RouteApplies(ctx: InboundContext, route: LastRoute): (b: bool)
    ensures b <==> ctx.originatingChannel != "webchat" && route.channel != "webchat"
  {
    IsExternal(ctx.originatingChannel) && IsExternal(route.channel)
  }

  /** The inbound metadata written under `sessionKey`. */
  function WithMeta(store: Store, e: InboundEvent): Store {
    var rec := RecordOr(store, e.sessionKey, e.freshSessionId, e.now);
    var origin := Origin(e.ctx.provider, e.ctx.surface, e.ctx.originatingChannel, e.ctx.chatType);
    store[e.sessionKey := rec.(origin := Some(origin), updatedAt := Max(rec.updatedAt, e.now))]
  }

  /** The route written under its own session key. */
  function WithRoute(store: Store, route: LastRoute, sessionId: string, now: int): Store {
    var rec := RecordOr(store, route.sessionKey, sessionId, now);
    store[route.sessionKey := rec.(
      lastChannel := Some(route.channel),
      lastTo := Some(route.to),
      lastAccountId := route.accountId,
      deliveryContext := Some(DeliveryContext(route.channel, route.to, route.accountId)),
      updatedAt := Max(rec.updatedAt, now))]
  }

  /** The store after one inbound message has been recorded. */
  function Inbound(store: Store, e: InboundEvent): (s: Store)
    ensures s.Keys == store.Keys + {e.sessionKey} + (if e.route.Some? && RouteApplies(e.ctx, e.route.value) then {e.route.value.sessionKey} else {})
  {
    var meta := WithMeta(store, e);
    if e.route.Some? && RouteApplies(e.ctx, e.route.value) then WithRoute(meta, e.route.value, e.freshSessionId, e.now)
    else meta
  }

  /** The routing fields of a record: what a reply is addressed by. */
  function RouteOf(r: SessionRecord): (Option<string>, Option<string>, Option<string>, Option<DeliveryContext>) {
    (r.lastChannel, r.lastTo, r.lastAccountId, r.deliveryContext)
  }

  /** Every stored route names an external channel. */
  predicate RoutesExternal(store: Store) {
    forall k :: k in store ==>
      (store[k].lastChannel.Some? ==> IsExternal(store[k].lastChannel.value))
      && (store[k].deliveryContext.Some? ==> IsExternal(store[k].deliveryContext.value.channel))
  }

  class SessionStore {
    var records: Store

    /** No internal surface ever owns a session's route. */
    ghost predicate Valid()
      reads this
    {
      RoutesExternal(records)
    }

    constructor(seed: Store)
      requires RoutesExternal(seed)
      ensures Valid() && records == seed
    {
      records := seed;
    }

    /**
     * `recordInboundSession`: records the message's metadata, then the route
     * when the affinity rule lets it through, and persists. `saved` is the
     * outcome of the write; when it fails the store keeps its old contents
     * and the error is handed back (to `onRecordError`) instead of raised.
     */
    method RecordInboundSession(e: InboundEvent, saved: bool) returns (reportedError: bool)
      requires Valid()
      modifies this
      ensures Valid()
      ensures reportedError == !saved
      ensures saved ==> records == Inbound(old(records), e)
      ensures !saved ==> records == old(records)
    {
      var next := WithMeta(records, e);
      if e.route.Some? && RouteApplies(e.ctx, e.route.value) {
        next := WithRoute(next, e.route.value, e.freshSessionId, e.now);
      }
      InboundKeepsRoutesExternal(records, e);
      if saved {
        records := next;
        reportedError := false;
      } else {
        reportedError := true;
      }
    }
  }

  // ------------------------------------------------------------ the rule

  /** The affinity invariant survives every inbound message. */
  lemma InboundKeepsRoutesExternal(store: Store, e: InboundEvent)
    requires RoutesExternal(store)
    ensures RoutesExternal(Inbound(store, e))
  {
  }

  /** A message from an internal surface leaves every stored route as it was, whatever route it proposes. */
  lemma InternalLeavesRoute(store: Store, e: InboundEvent)
    requires !IsExternal(e.ctx.originatingChannel)
    ensures forall k :: k in store ==> k in Inbound(store, e) && RouteOf(Inbound(store, e)[k]) == RouteOf(store[k])
  {
  }

  /** A message from an external channel makes its route the stored route of the route's session. */
  lemma ExternalTakesRoute(store: Store, e: InboundEvent)
    requires e.route.Some? && IsExternal(e.ctx.originatingChannel) && IsExternal(e.route.value.channel)
    ensures var r := e.route.value;
      r.sessionKey in Inbound(store, e)
      && Inbound(store, e)[r.sessionKey].lastChannel == Some(r.channel)
      && Inbound(store, e)[r.sessionKey].lastTo == Some(r.to)
      && Inbound(store, e)[r.sessionKey].lastAccountId == r.accountId
      && Inbound(store, e)[r.sessionKey].deliveryContext == Some(DeliveryContext(r.channel, r.to, r.accountId))
  {
  }

  /** Records of other session keys are untouched, and the message's own key always carries its metadata. */
  lemma OnlyItsSessionsChange(store: Store, e: InboundEvent, k: string)
    requires k in store && k != e.sessionKey && (e.route.None? || k != e.route.value.sessionKey)
    ensures k in Inbound(store, e) && Inbound(store, e)[k] == store[k]
    ensures e.sessionKey in Inbound(store, e)
    ensures Inbound(store, e)[e.sessionKey].origin
         == Some(Origin(e.ctx.provider, e.ctx.surface, e.ctx.originatingChannel, e.ctx.chatType))
    ensures Inbound(store, e)[e.sessionKey].updatedAt >= e.now
  {
  }

  // ------------------------------------------------------- a run of messages

  function Replay(store: Store, events: seq<InboundEvent>): Store
    decreases |events|
  {
    if events == [] then store else Replay(Inbound(store, events[0]), events[1..])
  }

  predicate RoutesTo(e: InboundEvent, key: string) {
    e.route.Some? && RouteApplies(e.ctx, e.route.value) && e.route.value.sessionKey == key
  }

  /** The delivery context a session key ends up with: the last route that reached it, else the one it had. */
  function LastDelivery(initial: Option<DeliveryContext>, events: seq<InboundEvent>, key: string): Option<DeliveryContext> {
    if events == [] then initial
    else
      var e := events[|events| - 1];
      if RoutesTo(e, key) then Some(DeliveryContext(e.route.value.channel, e.route.value.to, e.route.value.accountId))
      else LastDelivery(initial, events[..|events| - 1], key)
  }

  /**
   * After any run of inbound messages, a session's delivery context is the
   * route of the last external message that routed to it, or the one it had
   * before when there was none; internal messages in between never matter.
   */
  lemma {:induction false} ReplayDelivery(store: Store, events: seq<InboundEvent>, key: string)
    requires key in store
    ensures key in Replay(store, events)
    ensures Replay(store, events)[key].deliveryContext == LastDelivery(store[key].deliveryContext, events, key)
    decreases |events|
  {
    if events != [] {
      var last := events[|events| - 1];
      var init := events[..|events| - 1];
      ReplayDelivery(store, init, key);
      ReplaySplit(store, init, last);
      assert events == init + [last];
    }
  }

  lemma {:induction false} ReplaySplit(store: Store, init: seq<InboundEvent>, last: InboundEvent)
    ensures Replay(store, init + [last]) == Inbound(Replay(store, init), last)
    decreases |init|
  {
    if init == [] {
      assert Replay(Inbound(store, last), []) == Inbound(store, last);
    } else {
      ReplaySplit(Inbound(store, init[0]), init[1..], last);
      assert (init + [last])[1..] == init[1..] + [last];
    }
  }

  // ------------------------------------------------- the tests' situations

  const MainKey: string := "agent:main:main"

  const TelegramOwned: SessionRecord :=
    SessionRecord("sess-1", 0, Some("telegram"), Some("telegram:123"), Some("default"), None,
                  Some(DeliveryContext("telegram", "telegram:123", Some("default"))), None)

  /** A webchat message proposing a webchat route: telegram keeps the session. */
  lemma WebchatKeepsTelegram(now: int)
    ensures var ctx := InboundContext("webchat", "webchat", "webchat", "direct", "hello from webchat");
      var e := InboundEvent(MainKey, ctx, Some(LastRoute(MainKey, "webchat", "", None)), now, "");
      var rec := Inbound(map[MainKey := TelegramOwned], e)[MainKey];
      rec.lastChannel == Some("telegram")
      && rec.deliveryContext.Some? && rec.deliveryContext.value.channel == "telegram"
      && rec.deliveryContext.value.to == "telegram:123"
  {
  }

  /** The seed of the external-channel case: owned by telegram, with no account. */
  const TelegramOwnedNoAccount: SessionRecord :=
    SessionRecord("sess-1", 0, Some("telegram"), Some("telegram:123"), None, None,
                  Some(DeliveryContext("telegram", "telegram:123", None)), None)

  /** A discord message proposing a discord route: discord takes the session over. */
  lemma DiscordTakesOver(now: int)
    ensures var ctx := InboundContext("discord", "discord", "discord", "group", "hello from discord");
      var e := InboundEvent(MainKey, ctx, Some(LastRoute(MainKey, "discord", "channel:discord-456", Some("bot-1"))), now, "");
      var rec := Inbound(map[MainKey := TelegramOwnedNoAccount], e)[MainKey];
      rec.lastChannel == Some("discord")
      && rec.deliveryContext.Some? && rec.deliveryContext.value.channel == "discord"
      && rec.deliveryContext.value.to == "channel:discord-456"
  {
  }
}
