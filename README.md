# Steam log target: forwarding decision

A Dafny model of ArchiSteamFarm's NLog target "Steam" (`ArchiSteamFarm/SteamTarget.cs`). For
every log event the target receives, it decides whether to relay the rendered text to a Steam
group chat (`ChatGroupID`, `ChatID`), to a private chat with one account (`SteamID`), or to
both. It also decides which bot sends each message: the bot named by `BotName` when one is
configured, otherwise a connected bot taken from the bot registry `Bot.Bots`.

The model is pure, like the source:

- `options.dfy`: `Option`, which stands for a C# reference that may be `null`.
- `bot_registry.dfy` (module `BotRegistry`):
  - `Bot` holds a bot's name, its "connected and logged on" flag and its `CachedSteamID`.
  - `Registry` is a snapshot of `Bot.Bots.Values` as a sequence, in one arbitrary enumeration
    order.
  - `FirstOrDefault` models LINQ's first-match query.
  - `TryGetValue` models the dictionary lookup by name. The dictionary is keyed by name, which
    `UniqueNames` states. Only the lemmas that need a bot to be found require it.
- `steam_target.dfy` (module `SteamTarget`):
  - `Write` returns the background tasks it schedules. Each task carries the message and the
    pinned bot that its closure captures.
  - `SendGroupMessage` and `SendPrivateMessage` are those tasks. Each resolves its sender and
    returns the `Send` that reaches `Bot.SendMessage`.
  - `Dispatch` runs each scheduled task against the same registry snapshot.
  - `Relay` composes `Write` and `Dispatch` into the sends caused by one `Write` call.
  - `RelayAll` does the same for a series of `Write` calls: one round of sends per call,
    flattened.
- `steam_target_properties.dfy` (module `SteamTargetProperties`):
  - one lemma per gate of `Write`;
  - the exact conditions under which a group or a private message goes out;
  - addressing, and which bots may send;
  - the "never message yourself" rule;
  - two concrete scenarios.

Inputs that the source reads from outside:

- The event's rendered text (`Layout.Render`) is an input, carried in `LogEvent.rendering`.
- The registry is a parameter.
- `ulong` identifiers are the bounded type `u64`. They are only compared, so no overflow
  arises.

## Model

| member | source | states |
|---|---|---|
| `BotRegistry.FirstOrDefault` | ArchiSteamFarm/SteamTarget.cs:112 | the result is absent exactly when no element satisfies the predicate; otherwise it satisfies the predicate and every element before it does not |
| `BotRegistry.TryGetValue` | ArchiSteamFarm/SteamTarget.cs:87 | the lookup fails exactly when no registered bot has the name; a found bot is registered under that name, and with unique names it is the one bot registered under it |
| `SteamTarget.ResolvePin` | ArchiSteamFarm/SteamTarget.cs:84-94 | no pin exactly when `BotName` is null or empty; a pinned bot is registered under `BotName` and connected; with unique names the event is dropped exactly when no connected bot is registered under `BotName` |
| `SteamTarget.Write` | ArchiSteamFarm/SteamTarget.cs:63-103 | at most one group task and one private task; nothing is scheduled unless the event is present and renders to a non-empty text; every task carries that text; a group task only for a configured group and chat; a private task only for a configured `SteamID` and never handed a pinned bot logged on as `SteamID`; a handed bot is the connected bot registered under `BotName` |
| `SteamTarget.SendGroupMessage` | ArchiSteamFarm/SteamTarget.cs:105-120 | an empty or null message sends nothing; a send is addressed exactly `(ChatGroupID, ChatID, message)`; a pinned bot always sends it; unpinned, the sender is a registered connected bot, and nothing is sent exactly when no bot is connected |
| `SteamTarget.SendPrivateMessage` | ArchiSteamFarm/SteamTarget.cs:122-137 | an empty or null message sends nothing; a send is addressed exactly `(SteamID, message)`; a pinned bot always sends it; unpinned, the sender is a registered connected bot not logged on as `SteamID`, and nothing is sent exactly when there is no such bot |
| `SteamTarget.Dispatch` | ArchiSteamFarm/SteamTarget.cs:96-102 | a message goes out exactly when some scheduled task sends it; there are no more sends than tasks |
| `SteamTargetProperties.DispatchOneSendPerTask` | ArchiSteamFarm/SteamTarget.cs:96-102 | when every scheduled task finds a bot, there is exactly one send per task, the i-th send being the i-th task's: background sends are never merged |
| `SteamTargetProperties.NullEventSchedulesNothing` | ArchiSteamFarm/SteamTarget.cs:64-67 | a null event schedules and sends nothing |
| `SteamTargetProperties.NoDestinationIgnoresEventAndRegistry` | ArchiSteamFarm/SteamTarget.cs:71-76 | with no group pair and no `SteamID`, nothing is scheduled for any event and any registry; in a pure model, this independence from the rendering and the registry is what "not rendered, no lookup" amounts to |
| `SteamTargetProperties.EmptyMessageSchedulesNothing` | ArchiSteamFarm/SteamTarget.cs:78-82 | an event that renders to null or empty text schedules and sends nothing |
| `SteamTargetProperties.UnavailablePinnedBotSchedulesNothing` | ArchiSteamFarm/SteamTarget.cs:86-94 | a configured `BotName` with no registered bot, or with a bot that is not connected and logged on, schedules and sends nothing to either destination |
| `SteamTargetProperties.GroupTaskScheduledIff` | ArchiSteamFarm/SteamTarget.cs:71-97 | a group send is scheduled exactly when `ChatGroupID != 0 && ChatID != 0`, the event renders to non-empty text, and the configured bot, if any, is available |
| `SteamTargetProperties.PrivateTaskScheduledIff` | ArchiSteamFarm/SteamTarget.cs:72-101 | a private send is scheduled exactly when `SteamID != 0`, the event renders to non-empty text, and either no bot is configured or the configured bot is connected and not logged on as `SteamID` |
| `SteamTargetProperties.RelaySendsAreSound` | ArchiSteamFarm/SteamTarget.cs:96-136 | every message that goes out carries the rendered text, is addressed to the configured group chat or `SteamID`, and is sent by a registered, connected bot that is the pinned bot when one is configured and, for a private message, is not logged on as `SteamID` |
| `SteamTargetProperties.NeverMessagesItself` | ArchiSteamFarm/SteamTarget.cs:100-134 | no private message is sent by a bot whose `CachedSteamID` equals the recipient `SteamID` |
| `SteamTargetProperties.RelayGroupSendIff` | ArchiSteamFarm/SteamTarget.cs:71-119 | a group message goes out exactly when the group pair is configured, the event renders to non-empty text, and some registered bot is connected and is the configured bot if there is one |
| `SteamTargetProperties.RelayPrivateSendIff` | ArchiSteamFarm/SteamTarget.cs:72-136 | a private message goes out exactly when `SteamID` is configured, the event renders to non-empty text, and some registered bot is connected, not logged on as `SteamID`, and is the configured bot if there is one |
| `SteamTargetProperties.RelayAtMostOneOfEach` | ArchiSteamFarm/SteamTarget.cs:96-102 | one `Write` call sends at most two messages, at most one group message and at most one private message |
| `SteamTargetProperties.UnpinnedSenderIsFirstQualifying` | ArchiSteamFarm/SteamTarget.cs:111-134 | with no `BotName`, each message is sent by the first bot, in registry enumeration order, that is connected (and, for a private message, not logged on as `SteamID`) |
| `SteamTargetProperties.PinnedBotSendsEverything` | ArchiSteamFarm/SteamTarget.cs:84-101 | with a `BotName` configured, every message is sent by the bot of that name |
| `SteamTargetProperties.RelayAllAppend` | ArchiSteamFarm/SteamTarget.cs:63-103 | the sends of two series of `Write` calls are the sends of each series, concatenated: each call is independent of the calls before it |
| `SteamTargetProperties.RepeatedWritesNotDeduplicated` | ArchiSteamFarm/SteamTarget.cs:63-103 | writing the same event twice gives two equal rounds of sends; nothing is deduplicated |
| `SteamTargetProperties.PinnedGroupScenario` | ArchiSteamFarm/SteamTarget.cs:86-119 | pinned BotA with group 111/222 and no `SteamID`: exactly one group message `(111, 222, "hello")` from BotA, even when another connected bot comes first |
| `SteamTargetProperties.FallbackPrivateScenario` | ArchiSteamFarm/SteamTarget.cs:128-136 | no pin, `SteamID` 555, BotB logged on as 555 and BotC as 777: exactly one private message `(555, "x")`, sent by BotC |

## Left out

- `base.Write`, the NLog pass-through to the ordinary target output: it does not affect routing.
- The default `Layout` string and `Layout.Render`: the rendered text is an input of the model.
- The NLog attributes (`[Target]`, `[RequiredParameter]`, `[SuppressMessage]`): they are configuration metadata only.
- `Utilities.InBackground`, `async`/`await` and `ConfigureAwait`: each scheduled task is modelled by the `Send` it resolves to. No order between tasks, or between tasks of different calls, is modelled.
- `Bot.SendMessage` and its outcome: the model stops at the call and its arguments, because the transport code is not part of this model.
- `ASF.ArchiLogger.LogNullError`: it writes diagnostics only and does not change routing.
- Concurrent changes to `Bot.Bots` between `Write` and a background task's fallback lookup: every task resolves its bot against the same registry snapshot that `Write` read.
- Bot state beyond the name, the connected-and-logged-on flag and `CachedSteamID`: the target reads nothing else.
