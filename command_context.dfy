/** The command context: one reply / send / deferReply / delete surface over
    whichever handle triggered a command, a channel message or an interaction
    (slash command, context menu, button, select menu or other).

    The pure part (variant tests, getters, and what each operation does, as
    an `Effect`: the outcome plus the SDK calls issued) is stated as functions
    over a value view of the handle, `Handle`. The classes below hold the
    mutable state the operations touch (the SDK's interaction object, the
    caller's options object, the context's call trace) and their methods are
    proved to behave as those functions say. */
module CommandContexts {
  import opened Platform

  const AlreadyReplied := "Interaction is already replied."
  const ReplyFailurePrefix := "Unable to reply context, because: "
  const EphemeralRejected := "Cannot send ephemeral message in a non-interaction context."

  /** The class of the wrapped handle, as the `instanceof` tests see it. */
  datatype Kind =
    | ChannelMessage
    | CommandInteraction
    | ContextMenuInteraction
    | ButtonInteraction
    | SelectMenuInteraction
    | OtherInteraction

  /** `isInteraction()`: every interaction class derives from `Interaction`. */
  function IsInteraction(k: Kind): (r: bool)
    ensures r <==> k in {CommandInteraction, ContextMenuInteraction, ButtonInteraction, SelectMenuInteraction, OtherInteraction}
  {
    !k.ChannelMessage?
  }

  /** `isMessage()`: exactly the handles that are not interactions. */
  function IsMessage(k: Kind): (r: bool)
    ensures r <==> !IsInteraction(k)
  {
    k.ChannelMessage?
  }

  /** `isCommand()`: the interactions that carry deferred/replied state and options. */
  function IsCommand(k: Kind): (r: bool)
    ensures r ==> IsInteraction(k) && !IsMessage(k)
    ensures r <==> k == CommandInteraction || k == ContextMenuInteraction
  {
    k.CommandInteraction? || k.ContextMenuInteraction?
  }

  /** `isButton()`: an interaction, but not a command. */
  function IsButton(k: Kind): (r: bool)
    ensures r ==> IsInteraction(k) && !IsCommand(k)
  {
    k.ButtonInteraction?
  }

  /** `isSelectMenu()`: an interaction, but neither a command nor a button. */
  function IsSelectMenu(k: Kind): (r: bool)
    ensures r ==> IsInteraction(k) && !IsCommand(k) && !IsButton(k)
  {
    k.SelectMenuInteraction?
  }

  type InteractionKind = k: Kind | IsInteraction(k) witness CommandInteraction

  /** The SDK's own `deferred` / `replied` flags of an interaction. */
  datatype Flags = Flags(deferred: bool, replied: bool)

  const Fresh := Flags(false, false)

  /** One resolved option of a command interaction. */
  datatype CommandOption = CommandOption(name: string, value: string)

  /** The wrapped handle, as a value at one moment. Every interaction class
      has the raw flags; only the getters restrict them to commands. */
  datatype Handle =
    | MessageHandle(message: Message)
    | InteractionHandle(kind: InteractionKind, user: Snowflake, channel: Option<Snowflake>,
                        guild: Option<Snowflake>, options: seq<CommandOption>, flags: Flags)

  function KindOf(h: Handle): Kind {
    if h.MessageHandle? then ChannelMessage else h.kind
  }

  /** The `channel` getter. */
  function Channel(h: Handle): Option<Snowflake> {
    if h.MessageHandle? then h.message.channel else h.channel
  }

  /** The `guild` getter. */
  function Guild(h: Handle): Option<Snowflake> {
    if h.MessageHandle? then h.message.guild else h.guild
  }

  /** The `author` getter: the interaction's user, or the message's author. */
  function Author(h: Handle): Snowflake {
    if IsInteraction(KindOf(h)) then h.user else h.message.author
  }

  /** The `deferred` getter: false for every handle that is not a command. */
  function Deferred(h: Handle): (r: bool)
    ensures !IsCommand(KindOf(h)) ==> !r
    ensures IsCommand(KindOf(h)) ==> (r <==> h.flags.deferred)
  {
    IsCommand(KindOf(h)) && h.flags.deferred
  }

  /** The `replied` getter: false for every handle that is not a command. */
  function Replied(h: Handle): (r: bool)
    ensures !IsCommand(KindOf(h)) ==> !r
    ensures IsCommand(KindOf(h)) ==> (r <==> h.flags.replied)
  {
    IsCommand(KindOf(h)) && h.flags.replied
  }

  /** The `options` getter: present exactly for commands (null otherwise). */
  function CommandOptions(h: Handle): (r: Option<seq<CommandOption>>)
    ensures r.Some? <==> IsCommand(KindOf(h))
    ensures r.Some? ==> r.value == h.options
  {
    if IsCommand(KindOf(h)) then Some(h.options) else None
  }

  /** The guild member the `member` getter looks up: the author within the guild. */
  datatype MemberRef = MemberRef(guild: Snowflake, user: Snowflake)

  /** The `member` getter: a handle outside a guild fails (the non-null
      assertion on `guild` does not hold) instead of yielding null. */
  function Member(h: Handle): (r: Result<MemberRef>)
    ensures r.Err? <==> Guild(h).None?
    ensures r.Err? ==> r.message == NullRead("null", "members")
    ensures r.Ok? ==> r.value.guild == Guild(h).value && r.value.user == Author(h)
  {
    match Guild(h)
    case None => Err(NullRead("null", "members"))
    case Some(g) => Ok(MemberRef(g, Author(h)))
  }

  /** `isReplied` in `reply`: a command that was already deferred or replied to. */
  function IsReplied(h: Handle): (r: bool)
    ensures r <==> IsCommand(KindOf(h)) && (h.flags.replied || h.flags.deferred)
  {
    IsCommand(KindOf(h)) && (Replied(h) || Deferred(h))
  }

  /** The delivery mode `reply` hands to `send`. */
  function ReplyMode(h: Handle): (m: Mode)
    ensures m != FollowUp
    ensures m == EditReply <==> IsReplied(h)
    ensures !IsCommand(KindOf(h)) ==> m == Mode.Reply
  {
    if IsReplied(h) then EditReply else Mode.Reply
  }

  /** What one operation does: its outcome and the SDK calls it issued, in order. */
  datatype Effect<T> = Effect(result: Result<T>, calls: seq<Call>)

  /** `send` sets `fetchReply` on an object payload; a string is left alone. */
  function ForceFetchReply(p: Payload): (q: Payload)
    ensures p.Text? ==> q == p
    ensures p.Object? ==> q.Object? && q.fields.fetchReply
    ensures p.Object? ==> q.fields.(fetchReply := p.fields.fetchReply) == p.fields
    ensures q.Ephemeral() == p.Ephemeral()
  {
    match p
    case Text(_) => p
    case Object(f) => Object(f.(fetchReply := true))
  }

  /** `deferReply()`: acknowledges an interaction; nothing on a message. */
  function DeferEffect(h: Handle, a: Answers): (e: Effect<()>)
    ensures IsInteraction(KindOf(h)) ==> e == Effect(a.deferral, [InteractionDefer])
    ensures IsMessage(KindOf(h)) ==> e == Effect(Ok(()), [])
  {
    if IsInteraction(KindOf(h)) then Effect(a.deferral, [InteractionDefer]) else Effect(Ok(()), [])
  }

  /** `send(options, mode)`. On an interaction: deliver through `mode` with
      `fetchReply` forced, then re-fetch the message by id and fall back to
      the delivered object when the fetch fails. On a message: refuse an
      ephemeral payload before any call, else post once to the channel. */
  function SendEffect(h: Handle, p: Payload, mode: Mode, a: Answers): (e: Effect<Message>)
    ensures IsMessage(KindOf(h)) && p.Ephemeral() ==> e == Effect(Err(EphemeralRejected), [])
    ensures IsMessage(KindOf(h)) && !p.Ephemeral() && Channel(h).Some? ==>
              e == Effect(a.posting, [ChannelSend(Channel(h).value, p)])
    ensures IsMessage(KindOf(h)) && !p.Ephemeral() && Channel(h).None? ==>
              e == Effect(Err(NullRead("null", "send")), [])
    ensures IsInteraction(KindOf(h)) ==> 1 <= |e.calls| <= 2 && e.calls[0] == InteractionSend(mode, ForceFetchReply(p))
    ensures IsInteraction(KindOf(h)) && a.delivery.Err? ==> e == Effect(Err(a.delivery.message), e.calls[..1]) && |e.calls| == 1
    ensures IsInteraction(KindOf(h)) && a.delivery.Ok? && Channel(h).None? ==>
              e.result == Err(NullRead("null", "messages")) && |e.calls| == 1
    ensures IsInteraction(KindOf(h)) && a.delivery.Ok? && Channel(h).Some? && a.delivery.value.None? ==>
              e.result == Err(NullRead("undefined", "id")) && |e.calls| == 1
    ensures IsInteraction(KindOf(h)) && a.delivery.Ok? && Channel(h).Some? && a.delivery.value.Some? ==>
              var m := a.delivery.value.value;
              e.calls == [InteractionSend(mode, ForceFetchReply(p)), MessageFetch(Channel(h).value, m.id)] &&
              e.result == Ok(if a.refetch.Some? then a.refetch.value else m)
    // the fallback is exact: when the re-fetch fails, the delivered object itself is returned
    ensures IsInteraction(KindOf(h)) && e.result.Ok? && a.refetch.None? ==> a.delivery == Ok(Some(e.result.value))
  {
    if IsInteraction(KindOf(h)) then
      var deliver := [InteractionSend(mode, ForceFetchReply(p))];
      match a.delivery
      case Err(msg) => Effect(Err(msg), deliver)
      case Ok(delivered) =>
        match Channel(h)
        case None => Effect(Err(NullRead("null", "messages")), deliver)
        case Some(c) =>
          match delivered
          case None => Effect(Err(NullRead("undefined", "id")), deliver)
          case Some(m) => Effect(Ok(a.refetch.GetOr(m)), deliver + [MessageFetch(c, m.id)])
    else if p.Ephemeral() then
      Effect(Err(EphemeralRejected), [])
    else
      match Channel(h)
      case None => Effect(Err(NullRead("null", "send")), [])
      case Some(c) => Effect(a.posting, [ChannelSend(c, p)])
  }

  /** How `reply` re-throws a failure of `send`. */
  function Rewrapped(r: Result<Message>): (w: Result<Message>)
    ensures w.Ok? <==> r.Ok?
    ensures r.Ok? ==> w == r
    ensures r.Err? ==> w.message == ReplyFailurePrefix + r.message
  {
    match r
    case Ok(_) => r
    case Err(msg) => Err(ReplyFailurePrefix + msg)
  }

  /** `reply(options, autoedit)`: the already-replied conflict fails before
      any call and is not rewrapped; otherwise `send` in `ReplyMode`, with
      every failure of `send` rewrapped. */
  function ReplyEffect(h: Handle, p: Payload, autoedit: bool, a: Answers): (e: Effect<Message>)
    ensures IsReplied(h) && !autoedit ==> e == Effect(Err(AlreadyReplied), [])
    ensures !(IsReplied(h) && !autoedit) ==>
              var s := SendEffect(h, p, ReplyMode(h), a);
              e.calls == s.calls &&
              (s.result.Ok? ==> e.result == s.result) &&
              (s.result.Err? ==> e.result == Err(ReplyFailurePrefix + s.result.message))
  {
    if IsReplied(h) && !autoedit then
      Effect(Err(AlreadyReplied), [])
    else
      var s := SendEffect(h, p, ReplyMode(h), a);
      Effect(Rewrapped(s.result), s.calls)
  }

  /** `delete()`: a command deletes its reply, a message deletes itself, any
      other interaction issues no call and succeeds. */
  function DeleteEffect(h: Handle, a: Answers): (e: Effect<()>)
    ensures |e.calls| <= 1
    ensures IsCommand(KindOf(h)) ==> e == Effect(a.removal, [InteractionDeleteReply])
    ensures IsMessage(KindOf(h)) ==> e == Effect(a.removal, [MessageDelete(h.message.id)])
    ensures !IsCommand(KindOf(h)) && !IsMessage(KindOf(h)) ==> e == Effect(Ok(()), [])
  {
    if IsCommand(KindOf(h)) then Effect(a.removal, [InteractionDeleteReply])
    else if IsMessage(KindOf(h)) then Effect(a.removal, [MessageDelete(h.message.id)])
    else Effect(Ok(()), [])
  }

  /** The SDK's bookkeeping for one call: a fulfilled `deferReply` sets
      `deferred`, a fulfilled `reply` or `editReply` sets `replied`. */
  function AcknowledgeOne(h: Handle, c: Call, a: Answers): Handle {
    if h.MessageHandle? then h
    else
      match c
      case InteractionDefer =>
        if a.deferral.Ok? then h.(flags := h.flags.(deferred := true)) else h
      case InteractionSend(mode, _) =>
        if mode != FollowUp && a.delivery.Ok? then h.(flags := h.flags.(replied := true)) else h
      case _ => h
  }

  /** The handle after the SDK has processed `calls`: the variant and every
      projection stay as they were, and the flags only ever get set. */
  function Acknowledge(h: Handle, calls: seq<Call>, a: Answers): (r: Handle)
    ensures h.MessageHandle? ==> r == h
    ensures h.InteractionHandle? ==> r.InteractionHandle? && r == h.(flags := r.flags)
    ensures h.InteractionHandle? && h.flags.deferred ==> r.flags.deferred
    ensures h.InteractionHandle? && h.flags.replied ==> r.flags.replied
    decreases |calls|
  {
    if calls == [] then h else Acknowledge(AcknowledgeOne(h, calls[0], a), calls[1..], a)
  }

  /** Once a command is deferred or replied to, it stays so whatever the SDK
      does next: every later `reply` edits, or conflicts when `autoedit` is off. */
  lemma AcknowledgedStaysAcknowledged(h: Handle, calls: seq<Call>, a: Answers)
    requires IsReplied(h)
    ensures IsReplied(Acknowledge(h, calls, a))
    ensures ReplyMode(Acknowledge(h, calls, a)) == EditReply
  {
  }

  /** Deferring a fresh command and then replying goes through `editReply`,
      and the same reply with `autoedit` off conflicts. */
  lemma DeferThenReplyEdits(h: Handle, p: Payload, a: Answers)
    requires IsCommand(KindOf(h)) && h.flags == Fresh && a.deferral.Ok?
    ensures ReplyEffect(h, p, true, a).calls[0] == InteractionSend(Mode.Reply, ForceFetchReply(p))
    ensures var after := Acknowledge(h, DeferEffect(h, a).calls, a);
            ReplyEffect(after, p, true, a).calls[0] == InteractionSend(EditReply, ForceFetchReply(p)) &&
            ReplyEffect(after, p, false, a) == Effect(Err(AlreadyReplied), [])
  {
  }

  /** A first successful reply to a fresh command turns the next reply into an edit. */
  lemma ReplyThenReplyEdits(h: Handle, p: Payload, q: Payload, a: Answers)
    requires IsCommand(KindOf(h)) && h.flags == Fresh && a.delivery.Ok?
    ensures var after := Acknowledge(h, ReplyEffect(h, p, true, a).calls, a);
            ReplyEffect(after, q, true, a).calls[0] == InteractionSend(EditReply, ForceFetchReply(q))
  {
  }

  /** Button and select-menu contexts never edit and never conflict, whatever
      their raw flags say and however often they have been replied to. */
  lemma ComponentRepliesAreFresh(h: Handle, p: Payload, autoedit: bool, calls: seq<Call>, a: Answers)
    requires IsButton(KindOf(h)) || IsSelectMenu(KindOf(h))
    ensures ReplyEffect(h, p, autoedit, a).calls[0] == InteractionSend(Mode.Reply, ForceFetchReply(p))
    ensures ReplyMode(Acknowledge(h, calls, a)) == Mode.Reply
  {
  }

  /** A reply on a message context with a channel posts exactly once, returns
      what the channel returned (rewrapped on failure) and leaves the handle as it was. */
  lemma MessageReplyPostsOnce(h: Handle, text: string, autoedit: bool, a: Answers)
    requires h.MessageHandle? && h.message.channel.Some?
    ensures var e := ReplyEffect(h, Text(text), autoedit, a);
            e == Effect(Rewrapped(a.posting), [ChannelSend(h.message.channel.value, Text(text))]) &&
            Acknowledge(h, e.calls, a) == h
  {
  }

  /** An ephemeral reply on a message context fails before any call, and the
      failure reaches the caller rewrapped. */
  lemma EphemeralReplyOnMessageFailsEarly(h: Handle, p: Payload, autoedit: bool, a: Answers)
    requires IsMessage(KindOf(h)) && p.Ephemeral()
    ensures ReplyEffect(h, p, autoedit, a) == Effect(Err(ReplyFailurePrefix + EphemeralRejected), [])
  {
  }

  /** Every failure of `reply` is either the bare already-replied conflict,
      issued before any call, or carries the rewrap prefix. */
  lemma ReplyFailureShape(h: Handle, p: Payload, autoedit: bool, a: Answers)
    ensures var e := ReplyEffect(h, p, autoedit, a);
            e.result.Err? ==>
              (e.result.message == AlreadyReplied && e.calls == []) ||
              (|e.result.message| >= |ReplyFailurePrefix| && e.result.message[..|ReplyFailurePrefix|] == ReplyFailurePrefix)
  {
  }

  /** The SDK's interaction object: its class and projections never change;
      the SDK sets `deferred` and `replied` as calls succeed. */
  class Interaction {
    const kind: InteractionKind
    const user: Snowflake
    const channel: Option<Snowflake>
    const guild: Option<Snowflake>
    const options: seq<CommandOption>
    var deferred: bool
    var replied: bool

    constructor (kind: InteractionKind, user: Snowflake, channel: Option<Snowflake>,
                 guild: Option<Snowflake>, options: seq<CommandOption>)
      ensures View() == InteractionHandle(kind, user, channel, guild, options, Fresh)
    {
      this.kind, this.user, this.channel, this.guild, this.options := kind, user, channel, guild, options;
      deferred, replied := false, false;
    }

    function View(): Handle
      reads this
    {
      InteractionHandle(kind, user, channel, guild, options, Flags(deferred, replied))
    }
  }

  /** What a context wraps: a message, or a reference to an interaction object. */
  datatype Wrapped = WrappedMessage(message: Message) | WrappedInteraction(interaction: Interaction) {
    function Kind(): Kind {
      if WrappedMessage? then ChannelMessage else interaction.kind
    }

    function Footprint(): set<object> {
      if WrappedInteraction? then {interaction} else {}
    }

    function View(): Handle
      reads Footprint()
    {
      if WrappedMessage? then MessageHandle(message) else interaction.View()
    }
  }

  /** The caller's options object; `send` may set its `fetchReply`. */
  class MessageOptions {
    var content: Option<string>
    var embeds: seq<Embed>
    var ephemeral: bool
    var fetchReply: bool

    constructor (fields: Fields)
      ensures Value() == fields
    {
      content, embeds, ephemeral, fetchReply := fields.content, fields.embeds, fields.ephemeral, fields.fetchReply;
    }

    function Value(): Fields
      reads this
    {
      Fields(content, embeds, ephemeral, fetchReply)
    }
  }

  /** The `options` argument of `reply` and `send`: a string or an options object. */
  datatype Options = TextOptions(text: string) | ObjectOptions(obj: MessageOptions) {
    function Footprint(): set<object> {
      if ObjectOptions? then {obj} else {}
    }

    function Payload(): Payload
      reads Footprint()
    {
      if TextOptions? then Text(text) else Object(obj.Value())
    }
  }

  class CommandContext {
    const context: Wrapped
    var args: seq<string>
    var prefix: string
    /** The SDK calls issued through this context so far. */
    var calls: seq<Call>

    constructor (context: Wrapped, args: seq<string>, prefix: string)
      ensures this.context == context && this.args == args && this.prefix == prefix && calls == []
    {
      this.context, this.args, this.prefix := context, args, prefix;
      calls := [];
    }

    function State(): Handle
      reads context.Footprint()
    {
      context.View()
    }

    method DeferReply(a: Answers) returns (r: Result<()>)
      modifies this`calls, context.Footprint()
      ensures var e := DeferEffect(old(State()), a);
              r == e.result && calls == old(calls) + e.calls && State() == Acknowledge(old(State()), e.calls, a)
    {
      if IsInteraction(context.Kind()) {
        calls := calls + [InteractionDefer];
        r := a.deferral;
        if r.Ok? {
          context.interaction.deferred := true;
        }
      } else {
        r := Ok(());
      }
    }

    method Send(options: Options, mode: Mode, a: Answers) returns (r: Result<Message>)
      modifies this`calls, context.Footprint(), options.Footprint()
      ensures var e := SendEffect(old(State()), old(options.Payload()), mode, a);
              r == e.result && calls == old(calls) + e.calls && State() == Acknowledge(old(State()), e.calls, a)
      ensures options.Payload() == if IsInteraction(context.Kind()) then ForceFetchReply(old(options.Payload()))
                                   else old(options.Payload())
    {
      if IsInteraction(context.Kind()) {
        if options.ObjectOptions? {
          options.obj.fetchReply := true;
        }
        calls := calls + [InteractionSend(mode, options.Payload())];
        var delivered := a.delivery;
        if delivered.Err? {
          return Err(delivered.message);
        }
        if mode != FollowUp {
          context.interaction.replied := true;
        }
        var channel := context.interaction.channel;
        if channel.None? {
          return Err(NullRead("null", "messages"));
        }
        var msg := delivered.value;
        if msg.None? {
          return Err(NullRead("undefined", "id"));
        }
        ghost var sent := [InteractionSend(mode, options.Payload()), MessageFetch(channel.value, msg.value.id)];
        assert Acknowledge(old(State()), sent, a) == Acknowledge(State(), sent[1..], a);
        assert Acknowledge(State(), sent[1..], a) == Acknowledge(State(), [], a);
        calls := calls + [MessageFetch(channel.value, msg.value.id)];
        var res := a.refetch;
        return Ok(res.GetOr(msg.value));
      }
      if options.Payload().Ephemeral() {
        return Err(EphemeralRejected);
      }
      var channel := context.message.channel;
      if channel.None? {
        return Err(NullRead("null", "send"));
      }
      calls := calls + [ChannelSend(channel.value, options.Payload())];
      r := a.posting;
    }

    method Reply(options: Options, autoedit: bool, a: Answers) returns (r: Result<Message>)
      modifies this`calls, context.Footprint(), options.Footprint()
      ensures var e := ReplyEffect(old(State()), old(options.Payload()), autoedit, a);
              r == e.result && calls == old(calls) + e.calls && State() == Acknowledge(old(State()), e.calls, a)
      ensures options.Payload() ==
                if IsInteraction(context.Kind()) && !(IsReplied(old(State())) && !autoedit)
                then ForceFetchReply(old(options.Payload()))
                else old(options.Payload())
    {
      var isReplied := IsReplied(State());
      if isReplied && !autoedit {
        return Err(AlreadyReplied);
      }
      r := Send(options, if isReplied then EditReply else Mode.Reply, a);
      if r.Err? {
        r := Err(ReplyFailurePrefix + r.message);
      }
    }

    method Delete(a: Answers) returns (r: Result<()>)
      modifies this`calls
      ensures var e := DeleteEffect(State(), a);
              r == e.result && calls == old(calls) + e.calls
    {
      if IsCommand(context.Kind()) {
        calls := calls + [InteractionDeleteReply];
        r := a.removal;
      } else if IsMessage(context.Kind()) {
        calls := calls + [MessageDelete(context.message.id)];
        r := a.removal;
      } else {
        r := Ok(());
      }
    }
  }

  /** A fresh slash command that defers and then replies: the reply is an
      edit of the deferred response, re-fetched from the channel. */
  method DeferredCommandScenario(channel: Snowflake, delivered: Message, fetched: Message)
    returns (trace: seq<Call>, result: Result<Message>)
    ensures trace == [InteractionDefer,
                      InteractionSend(EditReply, Object(Fields(Some("result"), [], false, true))),
                      MessageFetch(channel, delivered.id)]
    ensures result == Ok(fetched)
  {
    var interaction := new Interaction(CommandInteraction, 1, Some(channel), None, []);
    var ctx := new CommandContext(WrappedInteraction(interaction), [], "!");
    var a := Answers(Ok(()), Ok(Some(delivered)), Some(fetched), Err("unused"), Ok(()));
    var _ := ctx.DeferReply(a);
    var options := new MessageOptions(Fields(Some("result"), [], false, false));
    result := ctx.Reply(ObjectOptions(options), true, a);
    trace := ctx.calls;
  }
}
