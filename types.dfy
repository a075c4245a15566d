/** Values the bot works with: platform identifiers, voice occupants, channels,
    permissions and the per-guild session record. */
module Types {

  datatype Option<+T> = None | Some(value: T)

  /** Platform identifiers are opaque strings ("snowflakes"). */
  type Snowflake = string
  type GuildId = Snowflake
  type ChannelId = Snowflake
  type UserId = Snowflake
  type MessageId = Snowflake

  /** An occupant of a voice channel; `bot` marks automated accounts. */
  datatype Member = Member(id: UserId, bot: bool)

  /** The voice channel the requester of `/game` sits in. The platform keys
      a channel's members by id, so no id occurs twice among them. */
  datatype VoiceChannel = VoiceChannel(id: ChannelId, members: seq<Member>)

  /** No two occupants share an id. */
  predicate DistinctIds(occupants: seq<Member>)
  {
    forall i, j :: 0 <= i < j < |occupants| ==> occupants[i].id != occupants[j].id
  }

  datatype ChannelKind = GuildVoice | GuildText | OtherKind

  /** An entry of the guild's channel cache: its kind and who is in it. */
  datatype Channel = Channel(kind: ChannelKind, members: seq<UserId>)

  /** Where the team announcement was posted. */
  datatype MessageRef = MessageRef(messageId: MessageId, channelId: ChannelId)

  datatype Permission =
    | ManageChannels
    | MoveMembers
    | ViewChannel
    | Connect
    | Administrator
    | SendMessages
    | OtherPermission(bit: nat)

  /** One game per guild: where the players came from, the two rosters, the two
      temporary channels (absent until the "Create game" button succeeds) and
      the announcement message. */
  datatype Session = Session(
    originalChannelId: ChannelId,
    teamA: seq<UserId>,
    teamB: seq<UserId>,
    chanA: Option<ChannelId>,
    chanB: Option<ChannelId>,
    teamsMessageId: MessageId,
    teamsChannelId: ChannelId)
}
