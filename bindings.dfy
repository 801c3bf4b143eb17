/**
  The `database(guilds, channels, models)` table as a map from guild to its
  binding, and the three ways the bot changes it: `/setup-chatbot`,
  `/reset-chatbot` and leaving a guild. Each is a step from the old table
  to the new one and an outcome; calls into Discord that may fail are
  given as their result.
 */
module Bindings {
  import Models

  type GuildId = int
  type ChannelId = int

  datatype Binding = Binding(channel: ChannelId, model: string)

  type Table = map<GuildId, Binding>

  /** No channel is bound to two guilds. */
  predicate ChannelsDistinct(t: Table) {
    forall g, h :: g in t && h in t && g != h ==> t[g].channel != t[h].channel
  }

  /** Every bound channel id is below `bound`: ids from `bound` on are unused. */
  predicate ChannelsBelow(t: Table, bound: ChannelId) {
    forall g :: g in t ==> t[g].channel < bound
  }

  /** The reasons a command stops; the first three are answered to the user, the others raise. */
  datatype Failure =
    | ModelNotFound
    | AlreadySetUp
    | NotSetUp
    | NoDatabase
    | ChannelCallFailed

  datatype Outcome = Done(channel: ChannelId) | Refused(reason: Failure)

  datatype Step = Step(table: Table, outcome: Outcome)

  /**
    `/setup-chatbot`: validate the model, look the guild up, create the
    channel (`created` says whether Discord did so, `newId` is the id it
    handed back), then insert the row.
   */
  function Setup(connected: bool, t: Table, guild: GuildId, model: string, created: bool, newId: ChannelId): (r: Step)
    ensures !Models.IsTextCompModel(model) ==> r.outcome == Refused(ModelNotFound)
    ensures Models.IsTextCompModel(model) && !connected ==> r.outcome == Refused(NoDatabase)
    ensures r.outcome == Refused(AlreadySetUp) <==> Models.IsTextCompModel(model) && connected && guild in t
    ensures Models.IsTextCompModel(model) && connected && guild !in t && !created ==> r.outcome == Refused(ChannelCallFailed)
    ensures r.outcome.Done? <==> Models.IsTextCompModel(model) && connected && guild !in t && created
    ensures r.outcome.Refused? ==> r.table == t
    ensures r.outcome.Done? ==>
      && r.outcome.channel == newId
      && r.table.Keys == t.Keys + {guild}
      && r.table[guild] == Binding(newId, model)
      && forall g :: g in t ==> r.table[g] == t[g]
  {
    if !Models.IsTextCompModel(model) then Step(t, Refused(ModelNotFound))
    else if !connected then Step(t, Refused(NoDatabase))
    else if guild in t then Step(t, Refused(AlreadySetUp))
    else if !created then Step(t, Refused(ChannelCallFailed))
    else Step(t[guild := Binding(newId, model)], Done(newId))
  }

  /**
    `/reset-chatbot`: look the guild up, fetch and delete its channel
    (`deleted` says whether both calls succeeded), then delete the row.
   */
  function Reset(connected: bool, t: Table, guild: GuildId, deleted: bool): (r: Step)
    ensures !connected ==> r.outcome == Refused(NoDatabase)
    ensures r.outcome == Refused(NotSetUp) <==> connected && guild !in t
    ensures connected && guild in t && !deleted ==> r.outcome == Refused(ChannelCallFailed)
    ensures r.outcome.Done? <==> connected && guild in t && deleted
    ensures r.outcome.Refused? ==> r.table == t
    ensures r.outcome.Done? ==>
      && r.outcome.channel == t[guild].channel
      && r.table.Keys == t.Keys - {guild}
      && forall g :: g in r.table ==> r.table[g] == t[g]
  {
    if !connected then Step(t, Refused(NoDatabase))
    else if guild !in t then Step(t, Refused(NotSetUp))
    else if !deleted then Step(t, Refused(ChannelCallFailed))
    else Step(t - {guild}, Done(t[guild].channel))
  }

  /** `on_guild_remove`: delete the guild's row, whether there is one or not. */
  function Remove(t: Table, guild: GuildId): (r: Table)
    ensures guild !in r
    ensures r.Keys == t.Keys - {guild}
    ensures forall g :: g in r ==> r[g] == t[g]
  {
    t - {guild}
  }

  // ---------------------------------------------------------------------
  // Properties of the lifecycle
  // ---------------------------------------------------------------------

  /** Setup with a channel id nobody holds keeps every channel bound to one guild. */
  lemma SetupKeepsChannelsDistinct(connected: bool, t: Table, guild: GuildId, model: string, created: bool, newId: ChannelId)
    requires ChannelsDistinct(t) && ChannelsBelow(t, newId)
    ensures ChannelsDistinct(Setup(connected, t, guild, model, created, newId).table)
    ensures ChannelsBelow(Setup(connected, t, guild, model, created, newId).table, newId + 1)
  {
  }

  /** Reset and removal only drop rows, so they keep the channels distinct. */
  lemma DeletionKeepsChannelsDistinct(connected: bool, t: Table, guild: GuildId, deleted: bool, bound: ChannelId)
    requires ChannelsDistinct(t) && ChannelsBelow(t, bound)
    ensures ChannelsDistinct(Reset(connected, t, guild, deleted).table)
    ensures ChannelsBelow(Reset(connected, t, guild, deleted).table, bound)
    ensures ChannelsDistinct(Remove(t, guild)) && ChannelsBelow(Remove(t, guild), bound)
  {
  }

  /** A second setup of the same guild is refused and changes nothing. */
  lemma SetupIsExclusive(t: Table, guild: GuildId, m1: string, m2: string, c1: bool, c2: bool, f1: ChannelId, f2: ChannelId)
    requires Setup(true, t, guild, m1, c1, f1).outcome.Done?
    requires Models.IsTextCompModel(m2)
    ensures var t1 := Setup(true, t, guild, m1, c1, f1).table;
      Setup(true, t1, guild, m2, c2, f2) == Step(t1, Refused(AlreadySetUp))
  {
  }

  /** After a successful reset the guild can be set up again. */
  lemma ResetThenSetup(t: Table, guild: GuildId, model: string, newId: ChannelId)
    requires guild in t && Models.IsTextCompModel(model)
    ensures var t1 := Reset(true, t, guild, true).table;
      Setup(true, t1, guild, model, true, newId).outcome == Done(newId)
  {
  }

  /** Removal is idempotent. */
  lemma RemoveIsIdempotent(t: Table, guild: GuildId)
    ensures Remove(Remove(t, guild), guild) == Remove(t, guild)
  {
  }

  /**
    If a bound channel can no longer be fetched (deleted by hand), reset
    raises before deleting the row, and setup keeps reporting that the
    chatbot is already set up: only leaving the guild clears the row.
   */
  lemma LostChannelSticks(t: Table, guild: GuildId, model: string, created: bool, newId: ChannelId)
    requires guild in t && Models.IsTextCompModel(model)
    ensures Reset(true, t, guild, false) == Step(t, Refused(ChannelCallFailed))
    ensures Setup(true, t, guild, model, created, newId) == Step(t, Refused(AlreadySetUp))
    ensures guild !in Remove(t, guild)
  {
  }
}
