/** The observable actions of the bot's handlers, in the order they happen. */
module Effects {
  import Delivery
  import opened Bindings

  /** A message sent back through the slash-command interaction. */
  datatype Notice =
    | Rejected(reason: Failure)
    | SetupDone(channel: ChannelId)
    | ResetDone

  /** Why a handler stopped by raising. */
  datatype Error =
    | CommandFailed(failure: Failure)
    | NoGuild
    | ImageUnreachable
    | CaptionNotJson
    | CaptionStatus(status: int)
    | CaptionMissingText
    | CompletionFailed(message: string)

  datatype Effect =
    | SetSlowmode(channel: ChannelId, seconds: nat)
    | FetchCaption(url: string)
    | RequestCompletion(model: string, prompt: string)
    | Reply(body: Delivery.Delivery, mentionAuthor: bool)
    | CreateChannel(guild: GuildId, name: string, slowmode: nat, channel: ChannelId)
    | DeleteChannel(channel: ChannelId)
    | Respond(notice: Notice)
    | Defer
    | Followup(body: Delivery.Delivery)
    | Raise(error: Error)
}
