/** The client-side records that the hooks and components pass around
    (the `User`, `Message` and `Reaction` interfaces of the frontend types). */
module FrontendTypes {
  import opened Common

  datatype User = User(userId: string, username: string, email: string, role: string, createdAt: string)

  datatype Reaction = Reaction(
    id: string,
    emoji: string,
    userId: string,
    username: string,
    createdAt: string,
    messageId: string)

  datatype Message = Message(
    id: string,
    content: string,
    channelId: string,
    createdById: string,
    createdByUsername: string,
    createdAt: string,
    parentMessageId: Option<string>,
    replyCount: int,
    reactions: seq<Reaction>)

  datatype Channel = Channel(
    id: string,
    name: string,
    isDirectMessage: bool,
    createdById: string,
    createdByUsername: string,
    createdAt: string)
}
