/**
  The bot's handlers as a stateful object: the open database handle, the
  binding table it holds, the channel ids Discord hands out, and the log
  of everything the handlers have done, in order.
 */
module Bot {
  import opened Wrappers
  import opened Text
  import opened Sanitizer
  import opened Delivery
  import opened Bindings
  import opened Effects
  import opened Router
  import Models
  import Utf8

  const CHANNEL_NAME := "freegpt-chat"

  /** What `/setup-chatbot` does visibly once its outcome is known. */
  function SetupEffects(guild: GuildId, o: Outcome): seq<Effect> {
    match o
    case Done(channel) => [CreateChannel(guild, CHANNEL_NAME, SLOWMODE_SECONDS, channel), Respond(SetupDone(channel))]
    case Refused(NoDatabase) => [Raise(CommandFailed(NoDatabase))]
    case Refused(ChannelCallFailed) => [Raise(CommandFailed(ChannelCallFailed))]
    case Refused(f) => [Respond(Rejected(f))]
  }

  /** What `/reset-chatbot` does visibly once its outcome is known. */
  function ResetEffects(o: Outcome): seq<Effect> {
    match o
    case Done(channel) => [DeleteChannel(channel), Respond(ResetDone)]
    case Refused(NoDatabase) => [Raise(CommandFailed(NoDatabase))]
    case Refused(ChannelCallFailed) => [Raise(CommandFailed(ChannelCallFailed))]
    case Refused(f) => [Respond(Rejected(f))]
  }

  class ChatBot {
    /** `bot.user` */
    const user: UserId
    /** `db is not None` */
    var connected: bool
    /** The rows of the `database` table. */
    var table: Table
    /** Discord never reuses an id: every id from here on is unused. */
    var nextChannel: ChannelId
    var log: seq<Effect>

    ghost predicate Valid()
      reads this
    {
      ChannelsDistinct(table) && ChannelsBelow(table, nextChannel)
    }

    constructor (user: UserId)
      ensures Valid()
      ensures this.user == user && !connected && table == map[] && nextChannel == 0 && log == []
    {
      this.user := user;
      connected := false;
      table := map[];
      nextChannel := 0;
      log := [];
    }

    /** `on_ready`: open the database; an existing table keeps its rows. */
    method OnReady()
      requires Valid()
      modifies this`connected
      ensures Valid() && connected
    {
      connected := true;
    }

    method SetupChatbot(guild: GuildId, model: string, created: bool) returns (outcome: Outcome)
      requires Valid()
      modifies this`table, this`nextChannel, this`log
      ensures Valid()
      ensures Step(table, outcome) == Setup(connected, old(table), guild, model, created, old(nextChannel))
      ensures log == old(log) + SetupEffects(guild, outcome)
      ensures nextChannel == if outcome.Done? then old(nextChannel) + 1 else old(nextChannel)
    {
      if !Models.IsTextCompModel(model) {
        log := log + [Respond(Rejected(ModelNotFound))];
        return Refused(ModelNotFound);
      }
      if !connected {
        log := log + [Raise(CommandFailed(NoDatabase))];
        return Refused(NoDatabase);
      }
      if guild in table {
        log := log + [Respond(Rejected(AlreadySetUp))];
        return Refused(AlreadySetUp);
      }
      if Models.IsTextCompModel(model) {
        if !created {
          log := log + [Raise(CommandFailed(ChannelCallFailed))];
          return Refused(ChannelCallFailed);
        }
        var channel := nextChannel;
        nextChannel := nextChannel + 1;
        log := log + [CreateChannel(guild, CHANNEL_NAME, SLOWMODE_SECONDS, channel)];
        table := table[guild := Binding(channel, model)];
        log := log + [Respond(SetupDone(channel))];
        outcome := Done(channel);
      } else {
        // The source checks the model a second time; the first check already returned, so this branch is dead.
        assert false;
      }
    }

    method ResetChatbot(guild: GuildId, deleted: bool) returns (outcome: Outcome)
      requires Valid()
      modifies this`table, this`log
      ensures Valid()
      ensures Step(table, outcome) == Reset(connected, old(table), guild, deleted)
      ensures log == old(log) + ResetEffects(outcome)
    {
      if !connected {
        log := log + [Raise(CommandFailed(NoDatabase))];
        return Refused(NoDatabase);
      }
      if guild !in table {
        log := log + [Respond(Rejected(NotSetUp))];
        return Refused(NotSetUp);
      }
      var channel := table[guild].channel;
      if !deleted {
        log := log + [Raise(CommandFailed(ChannelCallFailed))];
        return Refused(ChannelCallFailed);
      }
      log := log + [DeleteChannel(channel)];
      table := table - {guild};
      log := log + [Respond(ResetDone)];
      outcome := Done(channel);
    }

    /** `on_guild_remove` */
    method OnGuildRemove(guild: GuildId)
      requires Valid()
      modifies this`table, this`log
      ensures Valid()
      ensures table == if connected then Remove(old(table), guild) else old(table)
      ensures log == old(log) + if connected then [] else [Raise(CommandFailed(NoDatabase))]
    {
      if !connected {
        log := log + [Raise(CommandFailed(NoDatabase))];
        return;
      }
      table := table - {guild};
    }

    /**
      `on_message`, step by step with its early returns. The answer to a
      captioned image is sanitised and delivered like any other: the
      intended behaviour rather than the code's, which drops it.
     */
    method OnMessage(m: Message, caption: Captioner, complete: Completer)
      requires Valid()
      modifies this`log
      ensures log == old(log) + IntendedRoute(user, connected, table, m, caption, complete)
    {
      if m.author == user {
        return;
      }
      if !connected {
        return;
      }
      if m.guild.None? {
        log := log + [Raise(NoGuild)];
        return;
      }
      var guild := m.guild.value;
      if guild !in table {
        return;
      }
      var binding := table[guild];
      if m.channel != binding.channel {
        return;
      }
      log := log + [SetSlowmode(binding.channel, SLOWMODE_SECONDS)];
      var prompt := m.content;
      if |m.attachments| > 0 && EndsWith(m.attachments[0].url, ".png") {
        var url := m.attachments[0].url;
        log := log + [FetchCaption(url)];
        var text := CaptionText(caption(url));
        if text.Err? {
          log := log + [Raise(text.error)];
          return;
        }
        prompt := ImagePrompt(text.value, m.content);
      }
      log := log + [RequestCompletion(binding.model, prompt)];
      var resp := complete(binding.model, prompt);
      if resp.Failed? {
        log := log + [Raise(CompletionFailed(resp.reason))];
        return;
      }
      SendAnswer(resp.text);
    }

    /** The sanitise-and-deliver tail of `on_message`. */
    method SendAnswer(answer: string)
      modifies this`log
      ensures log == old(log) + [Reply(Deliver(Sanitize(answer)), false)]
    {
      var reply := answer;
      if NeedsRewrite(reply) {
        reply := Replace(reply, EVERYONE, "@|everyone");
        reply := Replace(reply, HERE, "@|here");
        reply := Replace(reply, MENTION_OPEN, "<@|");
      }
      if |reply| <= MESSAGE_LIMIT {
        log := log + [Reply(Inline(reply), false)];
      } else {
        log := log + [Reply(File(ATTACHMENT_NAME, Utf8.Encode(reply)), false)];
      }
    }
  }

  /** A bot that is connected and has bound guild 1 to channel 0 with `gpt3`. */
  method SetUpGuild() returns (bot: ChatBot)
    ensures fresh(bot) && bot.Valid()
    ensures bot.connected && bot.user == 0 && bot.table == map[1 := Binding(0, "gpt3")]
  {
    bot := new ChatBot(0);
    bot.OnReady();
    Models.AcceptsListed();
    assert Models.TEXT_COMP_MODELS[0] == "gpt3";
    var first := bot.SetupChatbot(1, "gpt3", true);
  }

  /** Setting up a second time is refused and keeps the first binding. */
  method SetupTwiceScenario() {
    var bot := SetUpGuild();
    Models.AcceptsListed();
    assert Models.TEXT_COMP_MODELS[1] == "gpt4";
    var second := bot.SetupChatbot(1, "gpt4", true);
    assert second == Refused(AlreadySetUp) && bot.table == map[1 := Binding(0, "gpt3")];
  }

  /** "hello" in the bound channel is answered inline. */
  method HelloScenario(caption: Captioner, complete: Completer)
    requires complete("gpt3", "hello") == Completed("hi there")
  {
    var bot := SetUpGuild();
    var before := bot.log;
    bot.OnMessage(Message(2, Some(1), 0, "hello", []), caption, complete);
    HelloExample(caption, complete, 0);
    IntendedRouteAgrees(0, true, bot.table, Message(2, Some(1), 0, "hello", []), caption, complete);
    assert bot.log == before + [SetSlowmode(0, 15), RequestCompletion("gpt3", "hello"), Reply(Inline("hi there"), false)];
  }

  /** After a reset the guild can be set up again, on a new channel. */
  method ResetThenSetupScenario() {
    var bot := SetUpGuild();
    var reset := bot.ResetChatbot(1, true);
    assert reset == Done(0) && bot.table == map[];
    Models.AcceptsMixedCase();
    var again := bot.SetupChatbot(1, "GPT4", true);
    assert again.Done? && again.channel != 0 && bot.table[1].model == "GPT4";
  }

  /** Leaving a guild drops its row, and leaving again changes nothing. */
  method GuildRemoveScenario() {
    var bot := SetUpGuild();
    bot.OnGuildRemove(1);
    assert bot.table == map[];
    bot.OnGuildRemove(1);
    assert bot.table == map[];
  }
}
