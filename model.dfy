/** Values the channel search layer works with: channels and memberships, the
    search engines it keeps in sync, the primary channel store it wraps, and the
    side effects it emits.

    The primary store and the engines are foreign code. Each is modelled as an
    oracle: a datatype whose fields are functions giving the answer each call
    returns for its arguments. As a modelling choice, a reply is either a value or
    an error, never both: Go's (value, error) pair is reduced to the case where an
    error comes with a nil value. */
module ChannelModel {

  type ChannelId = string
  type UserId = string
  type TeamId = string

  datatype Option<T> = None | Some(value: T)

  /** An application error. Only its presence is modelled; the id tells errors apart. */
  datatype AppError = AppError(id: string)

  /** A reply of the primary store or of an engine: a value, or an error. */
  datatype Result<T> = Ok(value: T) | Err(error: AppError)

  /** The channel types of the platform; only `Open` channels are searchable. */
  datatype ChannelType = Open | Private | Direct | Group

  /** A channel, reduced to the fields the search layer reads. A `deleteAt` of zero
      means the channel is not soft-deleted. */
  datatype Channel = Channel(id: ChannelId, kind: ChannelType, deleteAt: int, creatorId: UserId)

  datatype ChannelMember = ChannelMember(channelId: ChannelId, userId: UserId)

  datatype User = User(id: UserId)

  /** One active search engine: its two capability flags, read at the moment of the
      operation, and the answer its channel search gives for a team and a term. */
  datatype Engine = Engine(
    indexingEnabled: bool,
    autocompletionEnabled: bool,
    searchChannels: (TeamId, string) -> Result<seq<ChannelId>>)

  /** The primary store the search layer wraps: the answer of each operation it
      delegates to. `getAllProfilesInChannel` belongs to the user store; it answers
      with a map from user id to user, as the platform's store does. */
  datatype PrimaryStore = PrimaryStore(
    save: (Channel, int) -> Result<Channel>,
    update: Channel -> Result<Channel>,
    saveMember: ChannelMember -> Result<ChannelMember>,
    get: (ChannelId, bool) -> Result<Channel>,
    removeMember: (ChannelId, UserId) -> Option<AppError>,
    createDirectChannel: (User, User) -> Result<Channel>,
    autocompleteInTeam: (TeamId, string, bool) -> Result<seq<Channel>>,
    getChannelsByIds: seq<ChannelId> -> Result<seq<Channel>>,
    permanentDeleteMembersByChannel: ChannelId -> Option<AppError>,
    permanentDelete: ChannelId -> Option<AppError>,
    getAllProfilesInChannel: (ChannelId, bool) -> Result<map<UserId, User>>)

  /** The arguments of a channel autocompletion. */
  datatype AutocompleteQuery = AutocompleteQuery(teamId: TeamId, term: string, includeDeleted: bool)

  datatype JobKind = IndexJob | DeleteJob

  /** A side effect of the search layer. `EngineJob` is one background job handed to
      the engine at position `engine` of the active engines; `ReindexUser` is one
      request to re-index a user's searchable profile. */
  datatype Effect =
    | EngineJob(engine: nat, kind: JobKind, channel: Channel)
    | ReindexUser(userId: UserId)
}
