/**
 * Command construction of instance/commands.go: the message formats, the list
 * of periodic commands built from the configuration, and the chain builder that
 * links a list of commands into a ring. Commands live in an arena (an array of
 * records) and `next` is an index into that arena.
 */
module Instance {
  import opened Wrappers
  import Config

  const PrayCmdValue := "owo pray"
  const HuntCmdValue := "owo hunt"
  const SellBaseCmdValue := "owo sell"

  /** time.Second, in nanoseconds. */
  const NanosPerSecond := 1_000_000_000

  /** 2^64: a Go int converted to uint is taken modulo this. */
  const UintModulus := 0x1_0000_0000_0000_0000

  /** A command's CondFunc, with what it reads made explicit. `PauseBelow`
      compares the balance with a threshold fixed when the command is built;
      `ReadsRangeVar` is a closure that reads the threshold of the custom-command
      loop's variable whenever it is called. */
  datatype Cond = NoCond | PauseBelow(pauseBelowBalance: int) | ReadsRangeVar

  /** Calls a CondFunc at `balance`, with `rangeVar` the value the loop
      variable holds at the time of the call. */
  predicate CondHolds(cond: Cond, rangeVar: Config.CustomCommand, balance: int) {
    match cond
    case NoCond => true
    case PauseBelow(p) => p == 0 || balance >= p
    case ReadsRangeVar => rangeVar.pauseBelowBalance == 0 || balance >= rangeVar.pauseBelowBalance
  }

  /** The zero value Go gives the loop variable before the first iteration. */
  const ZeroCustomCommand := Config.CustomCommand("", 0, 0, 0)

  /** scheduler.Command as the builder fills it in. `interval` is a
      time.Duration in nanoseconds; `next` indexes the arena (nil is None). */
  datatype Cmd = Cmd(value: string, interval: int, awaitResume: bool, amount: nat, cond: Cond, next: Option<nat>)

  /** time.Duration(n) * time.Second. */
  function Seconds(n: int): int {
    n * NanosPerSecond
  }

  /** uint(x) for a 64-bit Go int: the two's complement bits read as unsigned. */
  function ToUint(x: int): (r: nat)
    ensures r < UintModulus
    ensures 0 <= x < UintModulus ==> r == x
    ensures -UintModulus <= x < 0 ==> r == x + UintModulus
  {
    x % UintModulus
  }

  // ---------------------------------------------------------------------------
  // Message formats and their inverses
  // ---------------------------------------------------------------------------

  /** sellCmdValue: "owo sell <item> <amount>". */
  function SellCmdValue(amount: string, item: string): (r: string)
    ensures |r| == |SellBaseCmdValue| + |item| + |amount| + 2
    ensures r[..|SellBaseCmdValue| + 1] == SellBaseCmdValue + " "
    ensures r[|SellBaseCmdValue| + 1..|SellBaseCmdValue| + 1 + |item|] == item
    ensures r[|SellBaseCmdValue| + 1 + |item|] == ' '
    ensures r[|r| - |amount|..] == amount
  {
    SellBaseCmdValue + " " + item + " " + amount
  }

  /** shareCmdValue: "<base> <amount> <@<id>>". The base string is not defined
      in the source, so it is a parameter here. */
  function ShareCmdValue(shareBase: string, amount: string, id: string): (r: string)
    ensures |r| == |shareBase| + |amount| + |id| + 5
    ensures r[..|shareBase| + 1] == shareBase + " "
    ensures r[|shareBase| + 1..|shareBase| + 1 + |amount|] == amount
    ensures r[|r| - |id| - 4..] == " <@" + id + ">"
  {
    shareBase + " " + amount + " <@" + id + ">"
  }

  /** Splits `s` at its first space: the text before it and, if there is a
      space, the text after it. */
  function SplitAtSpace(s: string): (string, Option<string>) {
    if |s| == 0 then ("", None)
    else if s[0] == ' ' then ("", Some(s[1..]))
    else
      var (head, tail) := SplitAtSpace(s[1..]);
      ([s[0]] + head, tail)
  }

  lemma {:induction false} SplitAtSpaceJoin(a: string, b: string)
    requires ' ' !in a
    ensures SplitAtSpace(a + " " + b) == (a, Some(b))
  {
    if |a| == 0 {
      assert a + " " + b == [' '] + b;
    } else {
      assert (a + " " + b)[1..] == a[1..] + " " + b;
      SplitAtSpaceJoin(a[1..], b);
      assert [a[0]] + a[1..] == a;
    }
  }

  /** Reads a sell message back into its item and amount. */
  function ParseSell(msg: string): Option<(string, string)> {
    var prefix := SellBaseCmdValue + " ";
    if prefix <= msg then
      match SplitAtSpace(msg[|prefix|..])
      case (item, Some(amount)) => Some((item, amount))
      case (_, None) => None
    else None
  }

  /** Reads a share message back into its amount and recipient id. */
  function ParseShare(shareBase: string, msg: string): Option<(string, string)> {
    var prefix := shareBase + " ";
    if prefix <= msg then
      match SplitAtSpace(msg[|prefix|..])
      case (amount, Some(mention)) =>
        if |mention| >= 3 && mention[..2] == "<@" && mention[|mention| - 1] == '>'
        then Some((amount, mention[2..|mention| - 1]))
        else None
      case (_, None) => None
    else None
  }

  /** A sell message names the item first and the amount second: both are
      recovered from it, in that order, whenever the item has no space. */
  lemma SellRoundTrip(amount: string, item: string)
    requires ' ' !in item
    ensures ParseSell(SellCmdValue(amount, item)) == Some((item, amount))
  {
    var prefix := SellBaseCmdValue + " ";
    var msg := SellCmdValue(amount, item);
    assert msg == prefix + (item + " " + amount);
    assert msg[|prefix|..] == item + " " + amount;
    SplitAtSpaceJoin(item, amount);
  }

  /** A share message carries its amount and the recipient's id, recovered
      whenever the amount has no space. */
  lemma ShareRoundTrip(shareBase: string, amount: string, id: string)
    requires ' ' !in amount
    ensures ParseShare(shareBase, ShareCmdValue(shareBase, amount, id)) == Some((amount, id))
  {
    var prefix := shareBase + " ";
    var mention := "<@" + id + ">";
    var msg := ShareCmdValue(shareBase, amount, id);
    assert msg == prefix + (amount + " " + mention);
    assert msg[|prefix|..] == amount + " " + mention;
    SplitAtSpaceJoin(amount, mention);
    assert mention[..2] == "<@";
    assert mention[2..|mention| - 1] == id;
  }

  // ---------------------------------------------------------------------------
  // newCmds
  // ---------------------------------------------------------------------------

  function PrayCmd(cooldown: Config.Cooldown): Cmd {
    Cmd(PrayCmdValue, Seconds(cooldown.pray), true, 0, NoCond, None)
  }

  function HuntCmd(cooldown: Config.Cooldown): Cmd {
    Cmd(HuntCmdValue, Seconds(cooldown.hunt), true, 0, NoCond, None)
  }

  /** The built-in commands that are switched on: pray, then hunt. */
  function BuiltinCmds(commands: Config.Commands, cooldown: Config.Cooldown): seq<Cmd> {
    (if commands.pray then [PrayCmd(cooldown)] else []) + (if commands.hunt then [HuntCmd(cooldown)] else [])
  }

  /** The command built for one custom command, each with its own pause
      threshold (see NewCmdsAsWritten for what the source's closure does). */
  function CustomCmd(custom: Config.CustomCommand): Cmd {
    Cmd(custom.value, Seconds(custom.interval), false, ToUint(custom.amount), PauseBelow(custom.pauseBelowBalance), None)
  }

  /** A custom command may be sent iff it has no pause threshold or the balance
      has reached it, whatever the loop variable holds when it is asked. */
  lemma CustomCondHolds(custom: Config.CustomCommand, rangeVar: Config.CustomCommand, balance: int)
    ensures CondHolds(CustomCmd(custom).cond, rangeVar, balance)
            <==> custom.pauseBelowBalance == 0 || balance >= custom.pauseBelowBalance
  {
  }

  /** newCmds: the enabled built-in commands, then one command per custom
      command in configuration order. */
  method NewCmds(features: Config.Features, compat: Config.Compat) returns (cmds: seq<Cmd>)
    ensures var builtin := BuiltinCmds(features.commands, compat.cooldown);
            && |cmds| == |builtin| + |features.customCommands|
            && cmds[..|builtin|] == builtin
            && forall i :: 0 <= i < |features.customCommands| ==>
                 cmds[|builtin| + i] == CustomCmd(features.customCommands[i])
    ensures features.commands.pray <==> PrayCmd(compat.cooldown) in cmds
    ensures features.commands.hunt <==> HuntCmd(compat.cooldown) in cmds
    ensures forall i :: 0 <= i < |cmds| ==> cmds[i].next.None?
  {
    cmds := [];
    if features.commands.pray {
      cmds := cmds + [PrayCmd(compat.cooldown)];
    }
    if features.commands.hunt {
      cmds := cmds + [HuntCmd(compat.cooldown)];
    }
    ghost var builtin := cmds;
    assert builtin == BuiltinCmds(features.commands, compat.cooldown);
    var customs := features.customCommands;
    var i := 0;
    while i < |customs|
      invariant 0 <= i <= |customs|
      invariant |cmds| == |builtin| + i
      invariant cmds[..|builtin|] == builtin
      invariant forall k :: 0 <= k < i ==> cmds[|builtin| + k] == CustomCmd(customs[k])
    {
      cmds := cmds + [CustomCmd(customs[i])];
      i := i + 1;
    }
    forall k | |builtin| <= k < |cmds|
      ensures !cmds[k].awaitResume && cmds[k].next.None?
    {
      assert cmds[k] == CustomCmd(customs[k - |builtin|]);
    }
    assert PrayCmd(compat.cooldown) != HuntCmd(compat.cooldown);
    if features.commands.pray {
      assert cmds[0] == builtin[0] == PrayCmd(compat.cooldown);
    }
    if features.commands.hunt {
      assert cmds[|builtin| - 1] == builtin[|builtin| - 1] == HuntCmd(compat.cooldown);
    }
    if PrayCmd(compat.cooldown) in cmds {
      var k :| 0 <= k < |cmds| && cmds[k] == PrayCmd(compat.cooldown);
      assert k < |builtin| && builtin[k] == PrayCmd(compat.cooldown);
    }
    if HuntCmd(compat.cooldown) in cmds {
      var k :| 0 <= k < |cmds| && cmds[k] == HuntCmd(compat.cooldown);
      assert k < |builtin| && builtin[k] == HuntCmd(compat.cooldown);
    }
  }

  /** newCmds as the source writes it. The closure of every custom command
      reads the range variable, which before Go 1.22 is one variable that each
      iteration overwrites; it is returned as `rangeVar`, its value once the
      loop is over. The commands are those of NewCmds except for their
      conditions, and every custom command's condition then behaves as the last
      custom command's own condition would. */
  method NewCmdsAsWritten(features: Config.Features, compat: Config.Compat)
    returns (cmds: seq<Cmd>, rangeVar: Config.CustomCommand)
    ensures var builtin := BuiltinCmds(features.commands, compat.cooldown);
            var customs := features.customCommands;
            && |cmds| == |builtin| + |customs|
            && cmds[..|builtin|] == builtin
            && (forall i :: 0 <= i < |customs| ==>
                  cmds[|builtin| + i] == CustomCmd(customs[i]).(cond := ReadsRangeVar))
            && (|customs| > 0 ==> rangeVar == customs[|customs| - 1])
    ensures var builtin := BuiltinCmds(features.commands, compat.cooldown);
            var customs := features.customCommands;
            forall k, balance :: |builtin| <= k < |cmds| ==>
              (CondHolds(cmds[k].cond, rangeVar, balance)
               <==> CondHolds(CustomCmd(customs[|customs| - 1]).cond, rangeVar, balance))
  {
    var builtin := BuiltinCmds(features.commands, compat.cooldown);
    cmds := builtin;
    var customs := features.customCommands;
    rangeVar := ZeroCustomCommand;
    var i := 0;
    while i < |customs|
      invariant 0 <= i <= |customs|
      invariant |cmds| == |builtin| + i
      invariant cmds[..|builtin|] == builtin
      invariant forall k :: 0 <= k < i ==> cmds[|builtin| + k] == CustomCmd(customs[k]).(cond := ReadsRangeVar)
      invariant i > 0 ==> rangeVar == customs[i - 1]
    {
      rangeVar := customs[i];
      cmds := cmds + [Cmd(rangeVar.value, Seconds(rangeVar.interval), false, ToUint(rangeVar.amount), ReadsRangeVar, None)];
      i := i + 1;
    }
    forall k | |builtin| <= k < |cmds|
      ensures cmds[k].cond == ReadsRangeVar && rangeVar == customs[|customs| - 1]
    {
      assert cmds[k] == CustomCmd(customs[k - |builtin|]).(cond := ReadsRangeVar);
    }
  }

  /** As written, a custom command behaves as its own threshold says, at every
      balance, exactly when that threshold is the last custom command's. */
  lemma CapturedMatchesOwnIff(customs: seq<Config.CustomCommand>, i: nat)
    requires i < |customs|
    ensures var last := customs[|customs| - 1];
            (forall b :: CondHolds(ReadsRangeVar, last, b) == CondHolds(CustomCmd(customs[i]).cond, last, b))
            <==> customs[i].pauseBelowBalance == last.pauseBelowBalance
  {
    var last := customs[|customs| - 1];
    var p, q := customs[i].pauseBelowBalance, last.pauseBelowBalance;
    if p != q {
      var b := if p == 0 then q - 1 else if q == 0 then p - 1 else if p < q then p else q;
      assert CondHolds(ReadsRangeVar, last, b) != CondHolds(CustomCmd(customs[i]).cond, last, b);
    }
  }

  /** With a threshold of 100 on the first custom command and none on the last,
      the captured closure lets the first command through at a balance of 50. */
  lemma CapturedCondCounterexample()
    ensures var customs := [Config.CustomCommand("owo cash", 10, 0, 100), Config.CustomCommand("owo daily", 10, 0, 0)];
            && CondHolds(ReadsRangeVar, customs[1], 50)
            && !CondHolds(CustomCmd(customs[0]).cond, customs[1], 50)
  {
  }

  // ---------------------------------------------------------------------------
  // newCmdChain and newAutoSellChain
  // ---------------------------------------------------------------------------

  /** The arena after chaining: each command points to the one after it, the
      last points back to the first and takes the chain interval. */
  function Chained(cmds: seq<Cmd>, chainInterval: int): seq<Cmd> {
    seq(|cmds|, i requires 0 <= i < |cmds| =>
      if i == |cmds| - 1 then cmds[i].(next := Some(0), interval := chainInterval)
      else cmds[i].(next := Some(i + 1)))
  }

  /** Where following `next` `steps` times from `from` leads, if it stays in
      the arena. */
  function Follow(arena: seq<Cmd>, from: nat, steps: nat): Option<nat>
    decreases steps
  {
    if from >= |arena| then None
    else if steps == 0 then Some(from)
    else match arena[from].next
      case None => None
      case Some(j) => Follow(arena, j, steps - 1)
  }

  lemma {:induction false} FollowAdd(arena: seq<Cmd>, from: nat, a: nat, b: nat)
    ensures Follow(arena, from, a + b) == match Follow(arena, from, a)
                                           case None => None
                                           case Some(j) => Follow(arena, j, b)
    decreases a
  {
    if from < |arena| && a > 0 && arena[from].next.Some? {
      FollowAdd(arena, arena[from].next.value, a - 1, b);
      assert a + b - 1 == (a - 1) + b;
    }
  }

  lemma {:induction false} FollowForward(cmds: seq<Cmd>, chainInterval: int, from: nat, steps: nat)
    requires from + steps < |cmds|
    ensures Follow(Chained(cmds, chainInterval), from, steps) == Some(from + steps)
    decreases steps
  {
    if steps > 0 {
      FollowForward(cmds, chainInterval, from + 1, steps - 1);
    }
  }

  lemma {:induction false} FollowWraps(cmds: seq<Cmd>, chainInterval: int, from: nat)
    requires from < |cmds|
    ensures Follow(Chained(cmds, chainInterval), from, |cmds| - from) == Some(0)
    decreases |cmds| - from
  {
    if from < |cmds| - 1 {
      FollowWraps(cmds, chainInterval, from + 1);
    }
  }

  /** A chain is a ring through the whole list: from the entry, the i-th step
      reaches the i-th command, and every command comes back to itself after as
      many steps as the list is long. */
  lemma ChainIsRing(cmds: seq<Cmd>, chainInterval: int)
    requires |cmds| > 0
    ensures forall i :: 0 <= i < |cmds| ==> Follow(Chained(cmds, chainInterval), 0, i) == Some(i)
    ensures forall i :: 0 <= i < |cmds| ==> Follow(Chained(cmds, chainInterval), i, |cmds|) == Some(i)
  {
    var arena := Chained(cmds, chainInterval);
    forall i | 0 <= i < |cmds|
      ensures Follow(arena, 0, i) == Some(i)
      ensures Follow(arena, i, |cmds|) == Some(i)
    {
      FollowForward(cmds, chainInterval, 0, i);
      FollowWraps(cmds, chainInterval, i);
      FollowAdd(arena, i, |cmds| - i, i);
    }
  }

  /** newCmdChain: links the arena into a ring in place and returns the index of
      the first command. An empty list makes the source index out of range, so
      it is excluded. */
  method NewCmdChain(cmds: array<Cmd>, chainInterval: int) returns (entry: nat)
    requires cmds.Length > 0
    modifies cmds
    ensures cmds[..] == Chained(old(cmds[..]), chainInterval)
    ensures entry == 0
    ensures forall i :: 0 < i < cmds.Length ==> cmds[i - 1].next == Some(i)
    ensures cmds[cmds.Length - 1].next == Some(0) && cmds[cmds.Length - 1].interval == chainInterval
    ensures forall i :: 0 <= i < cmds.Length - 1 ==> cmds[i].interval == old(cmds[i].interval)
    ensures forall i :: 0 <= i < cmds.Length ==>
              cmds[i] == old(cmds[i]).(next := cmds[i].next, interval := cmds[i].interval)
  {
    var n := cmds.Length;
    var i := 0;
    while i < n
      invariant 0 <= i <= n
      invariant forall k :: 0 <= k && k + 1 < i ==> cmds[k] == old(cmds[k]).(next := Some(k + 1))
      invariant forall k :: 0 <= k < n && i <= k + 1 && !(i == n && k == n - 1) ==> cmds[k] == old(cmds[k])
      invariant i == n ==> cmds[n - 1] == old(cmds[n - 1]).(next := Some(0), interval := chainInterval)
    {
      if i != 0 {
        cmds[i - 1] := cmds[i - 1].(next := Some(i));
      }
      if i == n - 1 {
        cmds[i] := cmds[i].(next := Some(0), interval := chainInterval);
      }
      i := i + 1;
    }
    assert cmds[..] == Chained(old(cmds[..]), chainInterval);
    entry := 0;
  }

  /** The sell command for one auto-sell item. */
  function SellCmd(item: string, cooldown: Config.Cooldown): Cmd {
    Cmd(SellCmdValue("max", item), Seconds(cooldown.sell), false, 0, NoCond, None)
  }

  /** newAutoSellChain: one "sell max" command per item, in item order, chained
      with the auto-sell interval. The source indexes the first command, so the
      item list must not be empty. */
  method NewAutoSellChain(features: Config.Features, compat: Config.Compat) returns (arena: array<Cmd>, entry: nat)
    requires |features.autoSell.items| > 0
    ensures fresh(arena)
    ensures entry == 0
    ensures arena[..] == Chained(seq(|features.autoSell.items|, i requires 0 <= i < |features.autoSell.items| =>
                                       SellCmd(features.autoSell.items[i], compat.cooldown)),
                                 Seconds(features.autoSell.interval))
    ensures arena.Length == |features.autoSell.items|
    ensures forall i :: 0 <= i < arena.Length ==> arena[i].value == SellCmdValue("max", features.autoSell.items[i])
  {
    var items := features.autoSell.items;
    var cmds: seq<Cmd> := [];
    var i := 0;
    while i < |items|
      invariant 0 <= i <= |items|
      invariant |cmds| == i
      invariant forall k :: 0 <= k < i ==> cmds[k] == SellCmd(items[k], compat.cooldown)
    {
      cmds := cmds + [SellCmd(items[i], compat.cooldown)];
      i := i + 1;
    }
    arena := new Cmd[|cmds|](k requires 0 <= k < |cmds| => cmds[k]);
    assert arena[..] == cmds;
    entry := NewCmdChain(arena, Seconds(features.autoSell.interval));
  }
}
