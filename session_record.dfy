/**
 * The session store shared by the inbound session recorder (writer) and the
 * delivery-target resolver (reader): one record per session key.
 */
module SessionRecords {
  import opened Wrappers

  /** The authoritative "where to reply" snapshot of a session. */
  datatype DeliveryContext = DeliveryContext(channel: string, to: string, accountId: Option<string>)

  /** The metadata of the last inbound message (provider, surface, originating channel, chat type). */
  datatype Origin = Origin(provider: string, surface: string, originatingChannel: string, chatType: string)

  datatype SessionRecord = SessionRecord(
    sessionId: string,
    updatedAt: int,
    lastChannel: Option<string>,
    lastTo: Option<string>,
    lastAccountId: Option<string>,
    lastThreadId: Option<int>,
    deliveryContext: Option<DeliveryContext>,
    origin: Option<Origin>)

  type Store = map<string, SessionRecord>

  /** Surfaces that are views onto a conversation rather than addresses a reply can reach. */
  const InternalSurfaces: set<string> := {"webchat"}

  predicate IsExternal(channel: string) {
    channel !in InternalSurfaces
  }

  /** A fresh record for a session key seen for the first time. */
  function NewRecord(sessionId: string, now: int): SessionRecord {
    SessionRecord(sessionId, now, None, None, None, None, None, None)
  }
}
