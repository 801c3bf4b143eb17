/**
  `on_message`: which messages the bot answers, the prompt it builds, and
  what it sends back; and `/ask`, which shares the delivery rule. The two
  model backends are given as functions from request to response, so each
  handler is the trace of effects those responses lead to.
 */
module Router {
  import opened Wrappers
  import opened Text
  import opened Sanitizer
  import opened Delivery
  import opened Bindings
  import opened Effects
  import Models

  type UserId = int

  datatype Attachment = Attachment(url: string)

  /** An incoming message; `guild` is absent for a direct message. */
  datatype Message = Message(
    author: UserId,
    guild: Option<GuildId>,
    channel: ChannelId,
    content: string,
    attachments: seq<Attachment>)

  /** The JSON body of the captioning service, if it parsed. */
  datatype CaptionBody = NotJson | Json(generatedText: Option<string>)

  /** The image download and captioning request, as one response. */
  datatype CaptionResponse = Unreachable | Response(status: int, body: CaptionBody)

  datatype Completion = Completed(text: string) | Failed(reason: string)

  type Captioner = string -> CaptionResponse
  type Completer = (string, string) -> Completion

  const SLOWMODE_SECONDS: nat := 15

  /** The image branch is taken when the first attachment's URL ends in `.png` (case-sensitive). */
  predicate HasImage(m: Message) {
    |m.attachments| > 0 && EndsWith(m.attachments[0].url, ".png")
  }

  function ImagePrompt(caption: string, content: string): (p: string)
    ensures StartsWith(p, "Image detected, description: ")
    ensures EndsWith(p, ". Prompt: " + content)
  {
    "Image detected, description: " + caption + ". Prompt: " + content
  }

  /**
    The caption, or the exception: the body is parsed before the status is
    checked, and the generated text is read last.
   */
  function CaptionText(r: CaptionResponse): (c: Result<string, Error>)
    ensures c.Ok? <==> r.Response? && r.status == 200 && r.body.Json? && r.body.generatedText.Some?
    ensures c.Ok? ==> c.value == r.body.generatedText.value
    ensures r.Response? && r.body.Json? && r.status != 200 ==> c == Err(CaptionStatus(r.status))
  {
    match r
    case Unreachable => Err(ImageUnreachable)
    case Response(status, body) =>
      match body
      case NotJson => Err(CaptionNotJson)
      case Json(text) =>
        if status != 200 then Err(CaptionStatus(status))
        else if text.None? then Err(CaptionMissingText)
        else Ok(text.value)
  }

  /** The early exits of `on_message`, before anything is sent. */
  datatype Gate = Ignore | Crash(error: Error) | Serve(binding: Binding)

  function Admit(self: UserId, connected: bool, t: Table, m: Message): Gate {
    if m.author == self then Ignore
    else if !connected then Ignore
    else match m.guild
      case None => Crash(NoGuild)
      case Some(g) =>
        if g !in t then Ignore
        else if m.channel != t[g].channel then Ignore
        else Serve(t[g])
  }

  /** The completion request and a failure it raises. */
  function Query(model: string, prompt: string, complete: Completer): seq<Effect> {
    [RequestCompletion(model, prompt)]
    + match complete(model, prompt)
      case Failed(e) => [Raise(CompletionFailed(e))]
      case Completed(_) => []
  }

  /** The sanitised answer, delivered as a reply that does not ping the author. */
  function Answer(model: string, prompt: string, complete: Completer): seq<Effect> {
    match complete(model, prompt)
    case Failed(_) => []
    case Completed(r) => [Reply(Deliver(Sanitize(r)), false)]
  }

  /** The text branch queries and answers; the image branch, as written, only queries. */
  function Handle(model: string, m: Message, caption: Captioner, complete: Completer): seq<Effect> {
    if HasImage(m) then
      var url := m.attachments[0].url;
      [FetchCaption(url)]
      + match CaptionText(caption(url))
        case Err(e) => [Raise(e)]
        case Ok(text) => Query(model, ImagePrompt(text, m.content), complete)
    else
      Query(model, m.content, complete) + Answer(model, m.content, complete)
  }

  /** Everything `on_message` does with one message. */
  function Route(self: UserId, connected: bool, t: Table, m: Message, caption: Captioner, complete: Completer): seq<Effect> {
    match Admit(self, connected, t, m)
    case Ignore => []
    case Crash(e) => [Raise(e)]
    case Serve(b) => [SetSlowmode(b.channel, SLOWMODE_SECONDS)] + Handle(b.model, m, caption, complete)
  }

  /** The image branch as evidently intended: its answer is sanitised and delivered too. */
  function IntendedHandle(model: string, m: Message, caption: Captioner, complete: Completer): seq<Effect> {
    if HasImage(m) then
      var url := m.attachments[0].url;
      [FetchCaption(url)]
      + match CaptionText(caption(url))
        case Err(e) => [Raise(e)]
        case Ok(text) =>
          var p := ImagePrompt(text, m.content);
          Query(model, p, complete) + Answer(model, p, complete)
    else
      Query(model, m.content, complete) + Answer(model, m.content, complete)
  }

  function IntendedRoute(self: UserId, connected: bool, t: Table, m: Message, caption: Captioner, complete: Completer): seq<Effect> {
    match Admit(self, connected, t, m)
    case Ignore => []
    case Crash(e) => [Raise(e)]
    case Serve(b) => [SetSlowmode(b.channel, SLOWMODE_SECONDS)] + IntendedHandle(b.model, m, caption, complete)
  }

  /**
    `/ask`: validate the model, defer, complete, and send the answer by the
    delivery rule; a failure is sent back as its message.
   */
  function AskCommand(model: string, prompt: string, complete: Completer): (e: seq<Effect>)
    ensures !Models.IsTextCompModel(model) ==> e == [Respond(Rejected(ModelNotFound))]
    ensures Models.IsTextCompModel(model) ==> |e| == 3 && e[..2] == [Defer, RequestCompletion(model, prompt)]
    ensures Models.IsTextCompModel(model) && complete(model, prompt).Completed? ==>
      e[2] == Followup(Deliver(complete(model, prompt).text))
    ensures Models.IsTextCompModel(model) && complete(model, prompt).Failed? ==>
      e[2] == Followup(Inline(complete(model, prompt).reason))
  {
    if !Models.IsTextCompModel(model) then [Respond(Rejected(ModelNotFound))]
    else
      [Defer, RequestCompletion(model, prompt)]
      + match complete(model, prompt)
        case Failed(e) => [Followup(Inline(e))]
        case Completed(r) => [Followup(Deliver(r))]
  }

  // ---------------------------------------------------------------------
  // Properties of the router
  // ---------------------------------------------------------------------

  /** A message the bot goes on to answer: not its own, database open, sent in the guild's bound channel. */
  predicate Served(self: UserId, connected: bool, t: Table, m: Message) {
    && m.author != self
    && connected
    && m.guild.Some?
    && m.guild.value in t
    && m.channel == t[m.guild.value].channel
  }

  /**
    A message leaves no trace at all (no slow-mode edit, no backend call,
    no reply) exactly when it is the bot's own, the database is not open,
    its guild has no row, or it was sent outside the bound channel.
   */
  lemma IgnoredExactly(self: UserId, connected: bool, t: Table, m: Message, caption: Captioner, complete: Completer)
    ensures Route(self, connected, t, m, caption, complete) == [] <==>
      || m.author == self
      || !connected
      || (m.guild.Some? && (m.guild.value !in t || m.channel != t[m.guild.value].channel))
    ensures IntendedRoute(self, connected, t, m, caption, complete) == [] <==>
      || m.author == self
      || !connected
      || (m.guild.Some? && (m.guild.value !in t || m.channel != t[m.guild.value].channel))
  {
  }

  /** A direct message reaches the guild lookup without a guild and raises there. */
  lemma DirectMessageRaises(self: UserId, t: Table, m: Message, caption: Captioner, complete: Completer)
    requires m.author != self && m.guild.None?
    ensures Route(self, true, t, m, caption, complete) == [Raise(NoGuild)]
  {
  }

  lemma HandleHasNoSlowmode(model: string, m: Message, caption: Captioner, complete: Completer)
    ensures forall e | e in Handle(model, m, caption, complete) :: !e.SetSlowmode?
    ensures forall e | e in IntendedHandle(model, m, caption, complete) :: !e.SetSlowmode?
  {
  }

  /** A served message first re-asserts a 15-second slow mode on the bound channel, and only once. */
  lemma SlowmodeFirstAndOnce(self: UserId, connected: bool, t: Table, m: Message, caption: Captioner, complete: Completer)
    requires Served(self, connected, t, m)
    ensures var e := Route(self, connected, t, m, caption, complete);
      && |e| > 1
      && e[0] == SetSlowmode(t[m.guild.value].channel, 15)
      && forall i :: 0 < i < |e| ==> !e[i].SetSlowmode?
    ensures var e := IntendedRoute(self, connected, t, m, caption, complete);
      && |e| > 1
      && e[0] == SetSlowmode(t[m.guild.value].channel, 15)
      && forall i :: 0 < i < |e| ==> !e[i].SetSlowmode?
  {
    var b := t[m.guild.value];
    HandleHasNoSlowmode(b.model, m, caption, complete);
    var h := Handle(b.model, m, caption, complete);
    var e := Route(self, connected, t, m, caption, complete);
    assert e == [SetSlowmode(b.channel, 15)] + h;
    forall i | 0 < i < |e|
      ensures !e[i].SetSlowmode?
    {
      assert e[i] == h[i - 1] && h[i - 1] in h;
    }
    var h' := IntendedHandle(b.model, m, caption, complete);
    var e' := IntendedRoute(self, connected, t, m, caption, complete);
    assert e' == [SetSlowmode(b.channel, 15)] + h';
    forall i | 0 < i < |e'|
      ensures !e'[i].SetSlowmode?
    {
      assert e'[i] == h'[i - 1] && h'[i - 1] in h';
    }
  }

  /** Without an image, the prompt is the message text verbatim, sent to the bound model. */
  lemma TextPromptIsContent(self: UserId, connected: bool, t: Table, m: Message, caption: Captioner, complete: Completer)
    requires Served(self, connected, t, m) && !HasImage(m)
    ensures var e := Route(self, connected, t, m, caption, complete);
      |e| == 3 && e[1] == RequestCompletion(t[m.guild.value].model, m.content)
  {
  }

  /** With a `.png`, the caption is merged into the prompt ahead of the message text. */
  lemma ImagePromptHasCaption(self: UserId, connected: bool, t: Table, m: Message, caption: Captioner, complete: Completer)
    requires Served(self, connected, t, m) && HasImage(m)
    requires CaptionText(caption(m.attachments[0].url)).Ok?
    ensures var e := Route(self, connected, t, m, caption, complete);
      var c := CaptionText(caption(m.attachments[0].url)).value;
      |e| >= 3 && e[..3] == [
        SetSlowmode(t[m.guild.value].channel, 15),
        FetchCaption(m.attachments[0].url),
        RequestCompletion(t[m.guild.value].model, "Image detected, description: " + c + ". Prompt: " + m.content)]
  {
    var e := Route(self, connected, t, m, caption, complete);
    assert |e| >= 3;
  }

  /** A failed download or caption (a non-200 status among them) raises before any completion request. */
  lemma CaptionFailureStopsEarly(self: UserId, connected: bool, t: Table, m: Message, caption: Captioner, complete: Completer)
    requires Served(self, connected, t, m) && HasImage(m)
    requires CaptionText(caption(m.attachments[0].url)).Err?
    ensures var e := Route(self, connected, t, m, caption, complete);
      && e == [SetSlowmode(t[m.guild.value].channel, 15), FetchCaption(m.attachments[0].url), Raise(CaptionText(caption(m.attachments[0].url)).error)]
      && forall i :: 0 <= i < |e| ==> !e[i].RequestCompletion?
  {
  }

  /** The answer to a text message: the sanitised completion, never pinging the author. */
  lemma TextAnswerIsSanitised(self: UserId, connected: bool, t: Table, m: Message, caption: Captioner, complete: Completer)
    requires Served(self, connected, t, m) && !HasImage(m)
    ensures var b := t[m.guild.value];
      Route(self, connected, t, m, caption, complete) ==
        [SetSlowmode(b.channel, 15), RequestCompletion(b.model, m.content)]
        + match complete(b.model, m.content)
          case Completed(r) => [Reply(Deliver(Sanitize(r)), false)]
          case Failed(reason) => [Raise(CompletionFailed(reason))]
  {
  }

  /**
    As written, the image branch sends nothing back: the completion is
    requested and its answer dropped.
   */
  lemma ImageAnswerIsDropped(self: UserId, connected: bool, t: Table, m: Message, caption: Captioner, complete: Completer)
    requires HasImage(m)
    ensures var e := Route(self, connected, t, m, caption, complete);
      forall i :: 0 <= i < |e| ==> !e[i].Reply?
  {
    var e := Route(self, connected, t, m, caption, complete);
    forall i | 0 <= i < |e|
      ensures !e[i].Reply?
    {
    }
  }

  /** The prompt of the example below. */
  lemma CatPrompt()
    ensures ImagePrompt("a cat", "what is this") == "Image detected, description: a cat. Prompt: what is this"
  {
  }

  /** The handler body for the captioned `cat.png` of the example below. */
  lemma CatImageHandled(caption: Captioner, complete: Completer)
    requires caption("cat.png") == Response(200, Json(Some("a cat")))
    requires complete("gpt3", "Image detected, description: a cat. Prompt: what is this") == Completed("a cat")
    ensures var m := Message(2, Some(1), 10, "what is this", [Attachment("cat.png")]);
      Handle("gpt3", m, caption, complete) == [
        FetchCaption("cat.png"),
        RequestCompletion("gpt3", "Image detected, description: a cat. Prompt: what is this")]
  {
    var m := Message(2, Some(1), 10, "what is this", [Attachment("cat.png")]);
    var url := m.attachments[0].url;
    assert url[3..] == ".png";
    assert HasImage(m);
    CatPrompt();
  }

  /** The example of a captioned image: its answer is requested and never sent. */
  lemma ImageAnswerIsDroppedExample(caption: Captioner, complete: Completer)
    requires caption("cat.png") == Response(200, Json(Some("a cat")))
    requires complete("gpt3", "Image detected, description: a cat. Prompt: what is this") == Completed("a cat")
    ensures var m := Message(2, Some(1), 10, "what is this", [Attachment("cat.png")]);
      Route(0, true, map[1 := Binding(10, "gpt3")], m, caption, complete) == [
        SetSlowmode(10, 15),
        FetchCaption("cat.png"),
        RequestCompletion("gpt3", "Image detected, description: a cat. Prompt: what is this")]
  {
    var m := Message(2, Some(1), 10, "what is this", [Attachment("cat.png")]);
    CatImageHandled(caption, complete);
    assert Admit(0, true, map[1 := Binding(10, "gpt3")], m) == Serve(Binding(10, "gpt3"));
  }

  /** A reply that does not ping its author and reads back as safe text. */
  predicate SafeReply(x: Effect) {
    x.Reply? ==> !x.mentionAuthor && Received(x.body).Some? && Safe(Received(x.body).value)
  }

  lemma AnswerIsSafe(model: string, prompt: string, complete: Completer)
    ensures forall x | x in Answer(model, prompt, complete) :: SafeReply(x)
  {
    match complete(model, prompt)
    case Failed(_) =>
    case Completed(r) =>
      DeliveryIsLossless(Sanitize(r));
      SanitizeIsSafe(r);
  }

  lemma HandleIsSafe(model: string, m: Message, caption: Captioner, complete: Completer)
    ensures forall x | x in Handle(model, m, caption, complete) :: SafeReply(x)
    ensures forall x | x in IntendedHandle(model, m, caption, complete) :: SafeReply(x)
  {
    AnswerIsSafe(model, m.content, complete);
    if HasImage(m) {
      var url := m.attachments[0].url;
      match CaptionText(caption(url))
      case Err(_) =>
      case Ok(c) => AnswerIsSafe(model, ImagePrompt(c, m.content), complete);
    }
  }

  /**
    Every reply the router sends, as written or as intended, does not ping
    the author, reads back as one piece of text, and that text is safe.
   */
  lemma RepliesAreSafe(self: UserId, connected: bool, t: Table, m: Message, caption: Captioner, complete: Completer)
    ensures forall x | x in Route(self, connected, t, m, caption, complete) :: SafeReply(x)
    ensures forall x | x in IntendedRoute(self, connected, t, m, caption, complete) :: SafeReply(x)
  {
    match Admit(self, connected, t, m)
    case Ignore =>
    case Crash(_) =>
    case Serve(b) => HandleIsSafe(b.model, m, caption, complete);
  }

  /** Corrected image branch: the caption-augmented answer is sanitised and delivered. */
  lemma IntendedImageAnswerIsDelivered(self: UserId, connected: bool, t: Table, m: Message, caption: Captioner, complete: Completer)
    requires Served(self, connected, t, m) && HasImage(m)
    requires CaptionText(caption(m.attachments[0].url)).Ok?
    ensures var b := t[m.guild.value];
      var p := ImagePrompt(CaptionText(caption(m.attachments[0].url)).value, m.content);
      IntendedRoute(self, connected, t, m, caption, complete) ==
        [SetSlowmode(b.channel, 15), FetchCaption(m.attachments[0].url), RequestCompletion(b.model, p)]
        + match complete(b.model, p)
          case Completed(r) => [Reply(Deliver(Sanitize(r)), false)]
          case Failed(reason) => [Raise(CompletionFailed(reason))]
  {
  }

  /** The correction changes nothing but the image branch's answer. */
  lemma IntendedRouteAgrees(self: UserId, connected: bool, t: Table, m: Message, caption: Captioner, complete: Completer)
    ensures !HasImage(m) ==> IntendedRoute(self, connected, t, m, caption, complete) == Route(self, connected, t, m, caption, complete)
    ensures HasImage(m) && Served(self, connected, t, m) && CaptionText(caption(m.attachments[0].url)).Err? ==>
      IntendedRoute(self, connected, t, m, caption, complete) == Route(self, connected, t, m, caption, complete)
  {
  }

  /** `/ask` hands back the completion verbatim, unsanitised, inline or as a file. */
  lemma AskReturnsAnswerVerbatim(model: string, prompt: string, complete: Completer)
    requires Models.IsTextCompModel(model) && complete(model, prompt).Completed?
    ensures var e := AskCommand(model, prompt, complete);
      e[2].Followup? && Received(e[2].body) == Some(complete(model, prompt).text)
  {
    DeliveryIsLossless(complete(model, prompt).text);
  }

  /** `hi there` has no `@` and no `<`, so the guard does not fire. */
  lemma HelloUntouched()
    ensures Sanitize("hi there") == "hi there"
  {
    var r := "hi there";
    NoFirstCharNoMatch(r, EVERYONE);
    NoFirstCharNoMatch(r, HERE);
    NoFirstCharNoMatch(r, MENTION_OPEN);
  }

  /** The answer in the example below passes the sanitiser untouched and fits inline. */
  lemma HelloAnswer(complete: Completer)
    requires complete("gpt3", "hello") == Completed("hi there")
    ensures Answer("gpt3", "hello", complete) == [Reply(Inline("hi there"), false)]
  {
    var r := "hi there";
    HelloUntouched();
    assert Deliver(r) == Inline(r) by { assert |r| == 8; }
  }

  /** Example: "hello" in the bound channel is answered inline with "hi there". */
  lemma HelloExample(caption: Captioner, complete: Completer, channel: ChannelId)
    requires complete("gpt3", "hello") == Completed("hi there")
    ensures var m := Message(2, Some(1), channel, "hello", []);
      Route(0, true, map[1 := Binding(channel, "gpt3")], m, caption, complete) ==
        [SetSlowmode(channel, 15), RequestCompletion("gpt3", "hello"), Reply(Inline("hi there"), false)]
  {
    var m := Message(2, Some(1), channel, "hello", []);
    var t := map[1 := Binding(channel, "gpt3")];
    HelloAnswer(complete);
    assert Query("gpt3", "hello", complete) == [RequestCompletion("gpt3", "hello")];
    assert !HasImage(m);
    assert Admit(0, true, t, m) == Serve(Binding(channel, "gpt3"));
  }
}
