/**
 The part of the bot registry (`Bot.Bots`) that the Steam log target reads: a snapshot of the
 registered bots, each with its name, whether it is connected and logged on, and the Steam
 identifier of the account it is logged on as. The registry is a dictionary keyed by bot name;
 its values are enumerated in an order the dictionary does not guarantee, so it is modelled as
 a sequence in one arbitrary enumeration order.
 */
module BotRegistry {
  import opened Options

  /** C#'s `ulong`, the type of every Steam identifier. */
  newtype u64 = x: int | 0 <= x < 0x1_0000_0000_0000_0000

  datatype Bot = Bot(name: string, isConnectedAndLoggedOn: bool, cachedSteamId: u64)

  /** `Bot.Bots.Values`, in the order the dictionary enumerates them. */
  type Registry = seq<Bot>

  /** The registry is a dictionary keyed by bot name, so no name occurs twice. */
  predicate UniqueNames(reg: Registry) {
    forall i, j :: 0 <= i < j < |reg| ==> reg[i].name != reg[j].name
  }

  /** The position of the first element satisfying `p`, or `|s|` when there is none. */
  function IndexOfFirst<T>(s: seq<T>, p: T -> bool): (k: nat)
    ensures k <= |s|
    ensures forall j :: 0 <= j < k ==> !p(s[j])
    ensures k < |s| ==> p(s[k])
  {
    if s == [] then 0
    else if p(s[0]) then 0
    else 1 + IndexOfFirst(s[1..], p)
  }

  /** LINQ's `FirstOrDefault(predicate)` on a sequence of references: the first element that
      satisfies `p`, or `null` (None) when no element does. */
  function FirstOrDefault<T>(s: seq<T>, p: T -> bool): (r: Option<T>)
    ensures r.None? <==> forall x :: x in s ==> !p(x)
    ensures r.Some? ==> p(r.value)
    ensures r.Some? ==> exists k :: 0 <= k < |s| && s[k] == r.value && forall j :: 0 <= j < k ==> !p(s[j])
  {
    var k := IndexOfFirst(s, p);
    if k < |s| then Some(s[k]) else None
  }

  /** `Bot.Bots.TryGetValue(name, out bot)`: the bot registered under `name`, if any. */
  function TryGetValue(reg: Registry, name: string): (r: Option<Bot>)
    ensures r.None? <==> forall b :: b in reg ==> b.name != name
    ensures r.Some? ==> r.value in reg && r.value.name == name
    ensures UniqueNames(reg) ==> forall b :: b in reg && b.name == name ==> r == Some(b)
  {
    FirstOrDefault(reg, (b: Bot) => b.name == name)
  }
}
