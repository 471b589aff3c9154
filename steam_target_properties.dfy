/**
 What the Steam log target promises about one log event and about a series of them: each gate
 of `Write`, the exact conditions under which a group or a private message goes out, how every
 message is addressed, which bots may send it, and that a bot never sends the private message
 to its own account. The lemmas about the sending bot speak of "some qualifying bot" except
 `UnpinnedSenderIsFirstQualifying`, which states the first-match choice against the
 registry's enumeration order.
 */
module SteamTargetProperties {
  import opened Options
  import opened BotRegistry
  import opened SteamTarget

  /** The event exists and its layout renders it to a non-empty text. */
  predicate Rendered(logEvent: Option<LogEvent>) {
    logEvent.Some? && !IsNullOrEmpty(logEvent.value.rendering)
  }

  /** No bot name is configured, or a connected bot is registered under that name. */
  predicate PinAvailable(cfg: Config, reg: Registry) {
    IsNullOrEmpty(cfg.botName)
    || exists b :: b in reg && b.name == cfg.botName.value && b.isConnectedAndLoggedOn
  }

  /** Bot `b` may send the group message: it is connected and, if a bot name is configured,
      it is that bot. */
  predicate MaySendGroup(cfg: Config, b: Bot) {
    b.isConnectedAndLoggedOn && (IsNullOrEmpty(cfg.botName) || b.name == cfg.botName.value)
  }

  /** Bot `b` may send the private message: as for the group message, and it is not logged on
      as the recipient account. */
  predicate MaySendPrivate(cfg: Config, b: Bot) {
    MaySendGroup(cfg, b) && b.cachedSteamId != cfg.steamId
  }

  // ---------------------------------------------------------------------------------------
  // The gates of Write

  lemma NullEventSchedulesNothing(cfg: Config, reg: Registry)
    ensures Write(cfg, None, reg) == []
    ensures Relay(cfg, None, reg) == []
  {
  }

  /** With neither destination configured, `Write` schedules nothing for any event and any
      registry. In this pure model, a result that is the same whatever the event renders to and
      whatever the registry holds is how "the event is not rendered and no bot is looked up"
      shows. */
  lemma NoDestinationIgnoresEventAndRegistry(cfg: Config, e: LogEvent, reg: Registry)
    requires !GroupDestination(cfg) && !PrivateDestination(cfg)
    ensures Write(cfg, Some(e), reg) == []
  {
  }

  lemma EmptyMessageSchedulesNothing(cfg: Config, e: LogEvent, reg: Registry)
    requires IsNullOrEmpty(e.rendering)
    ensures Write(cfg, Some(e), reg) == []
    ensures Relay(cfg, Some(e), reg) == []
  {
  }

  /** A configured bot name that names no registered bot, or a bot that is not connected and
      logged on, drops the event for both destinations. */
  lemma UnavailablePinnedBotSchedulesNothing(cfg: Config, e: LogEvent, reg: Registry)
    requires !IsNullOrEmpty(cfg.botName)
    requires forall b :: b in reg && b.name == cfg.botName.value ==> !b.isConnectedAndLoggedOn
    ensures Write(cfg, Some(e), reg) == []
    ensures Relay(cfg, Some(e), reg) == []
  {
  }

  /** A group send is scheduled exactly when the group destination is configured, the event
      renders to a non-empty text and the configured bot, if any, is available. */
  lemma GroupTaskScheduledIff(cfg: Config, logEvent: Option<LogEvent>, reg: Registry)
    requires UniqueNames(reg)
    ensures (exists t :: t in Write(cfg, logEvent, reg) && t.GroupTask?)
      <==> GroupDestination(cfg) && Rendered(logEvent) && PinAvailable(cfg, reg)
  {
    if GroupDestination(cfg) && Rendered(logEvent) && PinAvailable(cfg, reg) {
      assert !ResolvePin(cfg, reg).Unavailable?;
      assert Write(cfg, logEvent, reg)[0].GroupTask?;
    }
  }

  /** A private send is scheduled exactly when the private destination is configured, the event
      renders to a non-empty text and either no bot is configured or the configured bot is
      available and not logged on as the recipient. */
  lemma PrivateTaskScheduledIff(cfg: Config, logEvent: Option<LogEvent>, reg: Registry)
    requires UniqueNames(reg)
    ensures (exists t :: t in Write(cfg, logEvent, reg) && t.PrivateTask?)
      <==> && PrivateDestination(cfg) && Rendered(logEvent)
           && (|| IsNullOrEmpty(cfg.botName)
               || exists b :: b in reg && MaySendPrivate(cfg, b))
  {
    var tasks := Write(cfg, logEvent, reg);
    if && PrivateDestination(cfg) && Rendered(logEvent)
       && (IsNullOrEmpty(cfg.botName) || exists b :: b in reg && MaySendPrivate(cfg, b))
    {
      if !IsNullOrEmpty(cfg.botName) {
        var b :| b in reg && MaySendPrivate(cfg, b);
        assert ResolvePin(cfg, reg) == Pinned(b);
      }
      assert tasks[|tasks| - 1].PrivateTask?;
    }
  }

  // ---------------------------------------------------------------------------------------
  // The messages that go out

  /** Each task that finds a bot makes its own send: `Dispatch` makes one send per such task, in
      the order of the tasks, and merges nothing. */
  lemma {:induction false} DispatchOneSendPerTask(cfg: Config, reg: Registry, tasks: seq<Task>)
    requires forall t :: t in tasks ==> Run(cfg, reg, t).Some?
    ensures |Dispatch(cfg, reg, tasks)| == |tasks|
    ensures forall i :: 0 <= i < |tasks| ==> Run(cfg, reg, tasks[i]) == Some(Dispatch(cfg, reg, tasks)[i])
  {
    if tasks != [] {
      DispatchOneSendPerTask(cfg, reg, tasks[1..]);
      var rest := Dispatch(cfg, reg, tasks[1..]);
      assert Dispatch(cfg, reg, tasks) == [Run(cfg, reg, tasks[0]).value] + rest;
      forall i | 0 < i < |tasks|
        ensures Run(cfg, reg, tasks[i]) == Some(Dispatch(cfg, reg, tasks)[i])
      {
        assert tasks[i] == tasks[1..][i - 1];
      }
    }
  }

  /** Every message that goes out carries the rendered text, is addressed to the configured
      destination and is sent by a registered bot allowed to send it. */
  lemma RelaySendsAreSound(cfg: Config, logEvent: Option<LogEvent>, reg: Registry)
    ensures forall s :: s in Relay(cfg, logEvent, reg) ==>
      && s.sender in reg
      && Rendered(logEvent) && Some(s.text) == logEvent.value.rendering
      && (s.GroupSend? ==>
            GroupDestination(cfg) && s.chatGroupId == cfg.chatGroupId && s.chatId == cfg.chatId
            && MaySendGroup(cfg, s.sender))
      && (s.PrivateSend? ==>
            PrivateDestination(cfg) && s.steamId == cfg.steamId && MaySendPrivate(cfg, s.sender))
  {
  }

  /** No bot ever sends the private message to the account it is itself logged on as. */
  lemma NeverMessagesItself(cfg: Config, logEvent: Option<LogEvent>, reg: Registry)
    ensures forall s :: s in Relay(cfg, logEvent, reg) && s.PrivateSend? ==>
      s.steamId == cfg.steamId && s.sender.cachedSteamId != s.steamId
  {
  }

  /** A group message goes out exactly when the group destination is configured, the event
      renders to a non-empty text and some registered bot may send it. */
  lemma RelayGroupSendIff(cfg: Config, logEvent: Option<LogEvent>, reg: Registry)
    requires UniqueNames(reg)
    ensures (exists s :: s in Relay(cfg, logEvent, reg) && s.GroupSend?)
      <==> GroupDestination(cfg) && Rendered(logEvent) && exists b :: b in reg && MaySendGroup(cfg, b)
  {
    RelaySendsAreSound(cfg, logEvent, reg);
    var tasks := Write(cfg, logEvent, reg);
    if GroupDestination(cfg) && Rendered(logEvent) && exists b :: b in reg && MaySendGroup(cfg, b) {
      GroupTaskScheduledIff(cfg, logEvent, reg);
      var t :| t in tasks && t.GroupTask?;
      var s := Run(cfg, reg, t).value;
      assert s in Relay(cfg, logEvent, reg);
    }
  }

  /** A private message goes out exactly when the private destination is configured, the event
      renders to a non-empty text and some registered bot may send it. */
  lemma RelayPrivateSendIff(cfg: Config, logEvent: Option<LogEvent>, reg: Registry)
    requires UniqueNames(reg)
    ensures (exists s :: s in Relay(cfg, logEvent, reg) && s.PrivateSend?)
      <==> PrivateDestination(cfg) && Rendered(logEvent) && exists b :: b in reg && MaySendPrivate(cfg, b)
  {
    RelaySendsAreSound(cfg, logEvent, reg);
    var tasks := Write(cfg, logEvent, reg);
    if PrivateDestination(cfg) && Rendered(logEvent) && exists b :: b in reg && MaySendPrivate(cfg, b) {
      PrivateTaskScheduledIff(cfg, logEvent, reg);
      var t :| t in tasks && t.PrivateTask?;
      var s := Run(cfg, reg, t).value;
      assert s in Relay(cfg, logEvent, reg);
    }
  }

  /** One `Write` call sends at most one group message and at most one private message. */
  lemma RelayAtMostOneOfEach(cfg: Config, logEvent: Option<LogEvent>, reg: Registry)
    ensures |Relay(cfg, logEvent, reg)| <= 2
    ensures forall i, j :: 0 <= i < j < |Relay(cfg, logEvent, reg)| ==>
      Relay(cfg, logEvent, reg)[i].GroupSend? != Relay(cfg, logEvent, reg)[j].GroupSend?
  {
    var tasks := Write(cfg, logEvent, reg);
    if |tasks| == 2 {
      var rest := Dispatch(cfg, reg, tasks[1..]);
      assert tasks[1..][1..] == [];
      assert forall s :: s in rest ==> s.PrivateSend?;
    }
  }

  /** Bot `b` is a candidate of the fallback selection that produced a send of the kind of `s`. */
  predicate FallbackCandidate(cfg: Config, s: Send, b: Bot) {
    b.isConnectedAndLoggedOn && (s.PrivateSend? ==> b.cachedSteamId != cfg.steamId)
  }

  /** With no bot name configured, each message is sent by the first bot, in the registry's
      enumeration order, that qualifies for it. */
  lemma UnpinnedSenderIsFirstQualifying(cfg: Config, logEvent: Option<LogEvent>, reg: Registry)
    requires IsNullOrEmpty(cfg.botName)
    ensures forall s :: s in Relay(cfg, logEvent, reg) ==>
      exists k :: 0 <= k < |reg| && reg[k] == s.sender
        && forall j :: 0 <= j < k ==> !FallbackCandidate(cfg, s, reg[j])
  {
  }

  /** With a bot name configured, every message is sent by that bot. */
  lemma PinnedBotSendsEverything(cfg: Config, logEvent: Option<LogEvent>, reg: Registry)
    requires !IsNullOrEmpty(cfg.botName)
    ensures forall s :: s in Relay(cfg, logEvent, reg) ==> s.sender.name == cfg.botName.value
  {
  }

  // ---------------------------------------------------------------------------------------
  // Series of Write calls

  lemma {:induction false} FlattenAppend<T>(rounds1: seq<seq<T>>, rounds2: seq<seq<T>>)
    ensures Flatten(rounds1 + rounds2) == Flatten(rounds1) + Flatten(rounds2)
  {
    if rounds1 == [] {
      assert rounds1 + rounds2 == rounds2;
    } else {
      assert (rounds1 + rounds2)[1..] == rounds1[1..] + rounds2;
      FlattenAppend(rounds1[1..], rounds2);
    }
  }

  /** The sends of two series of `Write` calls are the sends of each series, one after the
      other: a call does not depend on the calls before it. */
  lemma RelayAllAppend(cfg: Config, es1: seq<Option<LogEvent>>, es2: seq<Option<LogEvent>>, reg: Registry)
    ensures RelayAll(cfg, es1 + es2, reg) == RelayAll(cfg, es1, reg) + RelayAll(cfg, es2, reg)
  {
    var es := es1 + es2;
    var rounds := seq(|es|, i requires 0 <= i < |es| => Relay(cfg, es[i], reg));
    var rounds1 := seq(|es1|, i requires 0 <= i < |es1| => Relay(cfg, es1[i], reg));
    var rounds2 := seq(|es2|, i requires 0 <= i < |es2| => Relay(cfg, es2[i], reg));
    assert rounds == rounds1 + rounds2;
    FlattenAppend(rounds1, rounds2);
  }

  /** Writing the same event twice makes two independent, equal rounds of sends: nothing is
      deduplicated across calls. */
  lemma RepeatedWritesNotDeduplicated(cfg: Config, e: Option<LogEvent>, reg: Registry)
    ensures RelayAll(cfg, [e, e], reg) == Relay(cfg, e, reg) + Relay(cfg, e, reg)
  {
    assert RelayAll(cfg, [e], reg) == Relay(cfg, e, reg) by {
      var es := [e];
      var rounds := seq(|es|, i requires 0 <= i < |es| => Relay(cfg, es[i], reg));
      assert rounds == [Relay(cfg, e, reg)];
      assert Flatten(rounds) == Relay(cfg, e, reg) + Flatten(rounds[1..]);
      assert rounds[1..] == [];
    }
    assert [e] + [e] == [e, e];
    RelayAllAppend(cfg, [e], [e], reg);
  }

  // ---------------------------------------------------------------------------------------
  // Scenarios

  /** Pinned "BotA", group 111/222, no recipient: exactly one group message, sent by BotA even
      though another connected bot is enumerated first. */
  lemma PinnedGroupScenario()
    ensures
      var botA := Bot("BotA", true, 1);
      var cfg := Config(Some("BotA"), 111, 222, 0);
      Relay(cfg, Some(LogEvent(Some("hello"))), [Bot("BotZ", true, 2), botA])
        == [GroupSend(botA, 111, 222, "hello")]
  {
  }

  /** No pinned bot, recipient 555, BotB logged on as 555 and BotC as 777: the private message
      is sent by BotC and never by BotB. */
  lemma FallbackPrivateScenario()
    ensures
      var botB := Bot("BotB", true, 555);
      var botC := Bot("BotC", true, 777);
      var cfg := Config(None, 0, 0, 555);
      Relay(cfg, Some(LogEvent(Some("x"))), [botB, botC]) == [PrivateSend(botC, 555, "x")]
  {
  }
}
