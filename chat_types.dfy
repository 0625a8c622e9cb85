/** The shared chat types of src/types/index.ts: users, the authentication
    state, transcript entries, and the outgoing and incoming WebSocket
    envelopes. Timestamps and the untyped `data` payload are not modelled. */
module ChatTypes {
  import opened Wrappers

  datatype User = User(id: string, name: string, email: string, avatar: Option<string>)

  /** `AuthState`. */
  datatype AuthState = AuthState(
    user: Option<User>,
    jwtToken: Option<string>,
    isAuthenticated: bool,
    isLoading: bool)

  datatype Sender = UserSender | AssistantSender

  /** `MessageType`. An envelope decoded from JSON may carry any other type
      name; `Unknown` stands for all of those. */
  datatype MessageType =
    | MessageKind
    | StatusKind
    | ErrorKind
    | CompleteKind
    | HumanInterventionKind
    | UiComponentKind
    | Unknown(name: string)

  /** A transcript entry (`Message`). */
  datatype Message = Message(
    id: string,
    content: string,
    sender: Sender,
    mtype: Option<MessageType>,
    componentType: Option<string>)

  /** `OutgoingMessage`, the envelope sent over the socket. */
  datatype OutgoingMessage = OutgoingMessage(
    message: string,
    threadId: string,
    messageId: string,
    timezone: Option<string>,
    userName: Option<string>,
    userEmail: Option<string>,
    userLocation: Option<string>)

  /** `IncomingMessage`, an envelope received from the socket. */
  datatype IncomingMessage = IncomingMessage(
    mtype: MessageType,
    content: Option<string>,
    message: Option<string>,
    sender: Option<string>,
    componentType: Option<string>)

  /** The arguments of the chat context's `sendMessage`. */
  datatype SendRequest = SendRequest(
    message: string,
    messageId: string,
    timezone: Option<string>,
    userName: Option<string>,
    userEmail: Option<string>,
    location: Option<string>)
}
