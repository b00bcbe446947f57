/** Values exchanged with the chat platform's SDK: identifiers, posted
    messages, reply payloads, the calls a command context issues and the
    answers the platform gives to them. The SDK's network behaviour is not
    modelled: every call's outcome is an input (see `Answers`). */
module Platform {

  datatype Option<+T> = None | Some(value: T) {
    /** The `??` operator: the value when there is one, else `default`. */
    function GetOr(default: T): T {
      match this
      case Some(v) => v
      case None => default
    }
  }

  /** A settled promise: fulfilled with a value, or rejected with an
      `Error` whose `message` is kept. */
  datatype Result<+T> = Ok(value: T) | Err(message: string)

  /** Platform identifiers (users, channels, guilds, messages). */
  type Snowflake = nat

  /** A posted channel message, reduced to what the context reads from it. */
  datatype Message = Message(id: Snowflake, channel: Option<Snowflake>, guild: Option<Snowflake>, author: Snowflake)

  datatype Embed = Embed(style: string, description: string)

  /** The fields of an object-shaped reply payload that the context and the
      commands use; an absent `content` is `None`, absent `embeds` is `[]`. */
  datatype Fields = Fields(content: Option<string>, embeds: seq<Embed>, ephemeral: bool, fetchReply: bool)

  /** A reply payload as handed to the platform: a bare string or an object. */
  datatype Payload = Text(text: string) | Object(fields: Fields) {
    /** `options.ephemeral` read as a truth value: a string has no such property. */
    predicate Ephemeral() {
      Object? && fields.ephemeral
    }
  }

  /** The interaction delivery method that `send` invokes. */
  datatype Mode = Reply | EditReply | FollowUp

  /** One call into the SDK, in the order the context issues them. */
  datatype Call =
    | InteractionDefer
    | InteractionSend(mode: Mode, payload: Payload)
    | MessageFetch(channel: Snowflake, id: Snowflake)
    | ChannelSend(channel: Snowflake, payload: Payload)
    | InteractionDeleteReply
    | MessageDelete(id: Snowflake)

  /** How the platform answers each kind of call. Every operation of the
      context issues each kind of call at most once, so one answer per kind
      describes a run completely.
      - `deferral`: the interaction's `deferReply()`;
      - `delivery`: the interaction's `reply` / `editReply` / `followUp`, which
        may fulfil without a message object (`None`);
      - `refetch`: `channel.messages.fetch(id)`; `None` when it rejects;
      - `posting`: `channel.send(...)`;
      - `removal`: `deleteReply()` or the message's `delete()`. */
  datatype Answers = Answers(
    deferral: Result<()>,
    delivery: Result<Option<Message>>,
    refetch: Option<Message>,
    posting: Result<Message>,
    removal: Result<()>)

  /** The message of the `TypeError` the JavaScript engine raises when a
      property is read from `null` or `undefined`. */
  function NullRead(holder: string, property: string): string {
    "Cannot read properties of " + holder + " (reading '" + property + "')"
  }
}
