/**
 The NLog target "Steam": every log event it receives may be relayed, as rendered text, to a
 Steam group chat, to a private chat with one Steam account, or to both, through one of the
 bots in the registry.

 `Write` decides which background sends to schedule (each one a `Task` carrying the arguments
 its closure captures); `SendGroupMessage` and `SendPrivateMessage` are those background
 sends, resolving the sending bot; `Relay` is the whole effect of one `Write` call: the sends
 that go out. Every background task resolves its bot against the same registry snapshot that
 `Write` read.
 */
module SteamTarget {
  import opened Options
  import opened BotRegistry

  /** The target's NLog configuration properties. `botName` is `null` unless configured; the
      three identifiers default to 0, which means "not set". */
  datatype Config = Config(botName: Option<string>, chatGroupId: u64, chatId: u64, steamId: u64)

  /** A log event, reduced to what the target's layout renders it to (possibly `null`). */
  datatype LogEvent = LogEvent(rendering: Option<string>)

  /** A background send scheduled by `Write`, with the message and the pinned bot (or `null`)
      that it was handed. */
  datatype Task =
    | GroupTask(message: Option<string>, bot: Option<Bot>)
    | PrivateTask(message: Option<string>, bot: Option<Bot>)

  /** A message that goes out: `sender.SendMessage(chatGroupId, chatId, text)` or
      `sender.SendMessage(steamId, text)`. */
  datatype Send =
    | GroupSend(sender: Bot, chatGroupId: u64, chatId: u64, text: string)
    | PrivateSend(sender: Bot, steamId: u64, text: string)

  /** The outcome of resolving the configured bot name: no name configured, the named bot
      (found and connected), or a drop (absent or not connected). */
  datatype Pin = Unpinned | Pinned(bot: Bot) | Unavailable

  /** C#'s `string.IsNullOrEmpty`. */
  predicate IsNullOrEmpty(s: Option<string>) {
    s.None? || s.value == ""
  }

  /** The target relays to a group chat: both the group and the chat inside it are set. */
  predicate GroupDestination(cfg: Config) {
    cfg.chatGroupId != 0 && cfg.chatId != 0
  }

  /** The target relays to a private chat with the account `cfg.steamId`. */
  predicate PrivateDestination(cfg: Config) {
    cfg.steamId != 0
  }

  /** Resolution of the pinned bot by name in the registry. */
  function ResolvePin(cfg: Config, reg: Registry): (p: Pin)
    ensures p.Unpinned? <==> IsNullOrEmpty(cfg.botName)
    ensures p.Pinned? ==> p.bot in reg && Some(p.bot.name) == cfg.botName && p.bot.isConnectedAndLoggedOn
    ensures UniqueNames(reg) && !IsNullOrEmpty(cfg.botName) ==>
      (p.Unavailable? <==> forall b :: b in reg && b.name == cfg.botName.value ==> !b.isConnectedAndLoggedOn)
  {
    if IsNullOrEmpty(cfg.botName) then Unpinned
    else match TryGetValue(reg, cfg.botName.value)
      case None => Unavailable
      case Some(bot) => if bot.isConnectedAndLoggedOn then Pinned(bot) else Unavailable
  }

  /** `SteamTarget.Write`: the background sends scheduled for one log event (`None` is a null
      event). The group task, when present, comes first. */
  function Write(cfg: Config, logEvent: Option<LogEvent>, reg: Registry): (tasks: seq<Task>)
    ensures |tasks| <= 2
    ensures forall i, j :: 0 <= i < j < |tasks| ==> tasks[i].GroupTask? && tasks[j].PrivateTask?
    ensures tasks != [] ==> logEvent.Some? && !IsNullOrEmpty(logEvent.value.rendering)
    ensures forall t :: t in tasks ==> logEvent.Some? && t.message == logEvent.value.rendering
    ensures forall t :: t in tasks && t.GroupTask? ==> GroupDestination(cfg)
    ensures forall t :: t in tasks && t.PrivateTask? ==>
      PrivateDestination(cfg) && (t.bot.None? || t.bot.value.cachedSteamId != cfg.steamId)
    ensures forall t :: t in tasks && t.bot.Some? ==>
      t.bot.value in reg && t.bot.value.isConnectedAndLoggedOn && Some(t.bot.value.name) == cfg.botName
    ensures forall t :: t in tasks && t.bot.None? ==> IsNullOrEmpty(cfg.botName)
  {
    if logEvent.None? then []
    else
      var groupMessage := GroupDestination(cfg);
      var privateMessage := PrivateDestination(cfg);
      if !groupMessage && !privateMessage then []
      else
        var message := logEvent.value.rendering;
        if IsNullOrEmpty(message) then []
        else
          var pin := ResolvePin(cfg, reg);
          if pin.Unavailable? then []
          else
            var bot := if pin.Pinned? then Some(pin.bot) else None;
            (if groupMessage then [GroupTask(message, bot)] else [])
            + (if privateMessage && (bot.None? || bot.value.cachedSteamId != cfg.steamId)
               then [PrivateTask(message, bot)] else [])
  }

  /** `SteamTarget.SendGroupMessage`: the group message sent by the pinned bot or, with none
      pinned, by a connected bot of the registry; nothing for an empty message or when no bot
      is connected. */
  function SendGroupMessage(cfg: Config, reg: Registry, message: Option<string>, bot: Option<Bot>): (r: Option<Send>)
    ensures IsNullOrEmpty(message) ==> r.None?
    ensures r.Some? ==>
      && message.Some? && r.value.GroupSend?
      && r.value.chatGroupId == cfg.chatGroupId && r.value.chatId == cfg.chatId && r.value.text == message.value
    ensures bot.Some? && !IsNullOrEmpty(message) ==> r.Some? && r.value.sender == bot.value
    ensures bot.None? && r.Some? ==> r.value.sender in reg && r.value.sender.isConnectedAndLoggedOn
    ensures bot.None? && !IsNullOrEmpty(message) ==>
      (r.None? <==> forall b :: b in reg ==> !b.isConnectedAndLoggedOn)
  {
    if IsNullOrEmpty(message) then None
    else
      var sender := if bot.Some? then bot else FirstOrDefault(reg, (b: Bot) => b.isConnectedAndLoggedOn);
      if sender.None? then None
      else Some(GroupSend(sender.value, cfg.chatGroupId, cfg.chatId, message.value))
  }

  /** `SteamTarget.SendPrivateMessage`: the private message to `cfg.steamId` sent by the pinned
      bot or, with none pinned, by a connected bot logged on as another account; nothing for an
      empty message or when no such bot exists. */
  function SendPrivateMessage(cfg: Config, reg: Registry, message: Option<string>, bot: Option<Bot>): (r: Option<Send>)
    ensures IsNullOrEmpty(message) ==> r.None?
    ensures r.Some? ==>
      && message.Some? && r.value.PrivateSend?
      && r.value.steamId == cfg.steamId && r.value.text == message.value
    ensures bot.Some? && !IsNullOrEmpty(message) ==> r.Some? && r.value.sender == bot.value
    ensures bot.None? && r.Some? ==>
      && r.value.sender in reg && r.value.sender.isConnectedAndLoggedOn
      && r.value.sender.cachedSteamId != cfg.steamId
    ensures bot.None? && !IsNullOrEmpty(message) ==>
      (r.None? <==> forall b :: b in reg ==> !b.isConnectedAndLoggedOn || b.cachedSteamId == cfg.steamId)
  {
    if IsNullOrEmpty(message) then None
    else
      var sender := if bot.Some? then bot
        else FirstOrDefault(reg, (b: Bot) => b.isConnectedAndLoggedOn && b.cachedSteamId != cfg.steamId);
      if sender.None? then None
      else Some(PrivateSend(sender.value, cfg.steamId, message.value))
  }

  /** One background task running to the point of its `SendMessage` call. */
  function Run(cfg: Config, reg: Registry, t: Task): (r: Option<Send>) {
    match t
    case GroupTask(message, bot) => SendGroupMessage(cfg, reg, message, bot)
    case PrivateTask(message, bot) => SendPrivateMessage(cfg, reg, message, bot)
  }

  /** The sends that the scheduled tasks make, each task on its own. */
  function Dispatch(cfg: Config, reg: Registry, tasks: seq<Task>): (sends: seq<Send>)
    ensures |sends| <= |tasks|
    ensures forall s :: s in sends <==> exists t :: t in tasks && Run(cfg, reg, t) == Some(s)
  {
    if tasks == [] then []
    else
      var first := match Run(cfg, reg, tasks[0]) case None => [] case Some(s) => [s];
      first + Dispatch(cfg, reg, tasks[1..])
  }

  /** The sends that one `Write` call brings about. */
  function Relay(cfg: Config, logEvent: Option<LogEvent>, reg: Registry): (sends: seq<Send>) {
    Dispatch(cfg, reg, Write(cfg, logEvent, reg))
  }

  /** The rounds of sends one after the other. */
  function Flatten<T>(rounds: seq<seq<T>>): (r: seq<T>) {
    if rounds == [] then [] else rounds[0] + Flatten(rounds[1..])
  }

  /** The sends brought about by a series of `Write` calls on the same registry snapshot: one
      round per call. */
  function RelayAll(cfg: Config, logEvents: seq<Option<LogEvent>>, reg: Registry): (sends: seq<Send>) {
    Flatten(seq(|logEvents|, i requires 0 <= i < |logEvents| => Relay(cfg, logEvents[i], reg)))
  }
}
