/**
 Events as the bridge sees them. Signing and hashing are symbolic: an id is a
 constructor applied to the event it identifies, so ids are injective, and a key
 either belongs to the bridge connection of one community or to a person.
 */
module Nostr {

  // Row identifiers: only their equality matters.
  type CommunityId = int
  type EndpointId = int
  type HubId = int
  type Uuid = int

  datatype Pubkey = BridgeKey(community: CommunityId) | HumanKey(person: nat)

  /** 64 hexadecimal digits: the id of an event, or digits that identify none. */
  datatype EventId = IdOf(event: Event) | Dangling(digits: nat)

  /** One string inside a tag, classified by what it spells. */
  datatype Field = Text(text: string) | UuidText(uuid: Uuid) | HexId(id: EventId) | HexKey(key: Pubkey)

  type Tag = seq<Field>

  datatype Event = Event(pubkey: Pubkey, createdAt: int, kind: int, tags: seq<Tag>, content: string)
}
