/**
 * The configuration records of config/config.go and the validation rules of
 * config/validate.go. Every validator returns either Pass (Go's nil error) or
 * the first rule it found broken, and is proved equivalent to a declarative
 * predicate stating which configurations are acceptable.
 */
module Config {

  const ShiftStateActive := "active"
  const ShiftStateDormant := "dormant"

  datatype Config = Config(
    clusters: map<string, Cluster>,
    shifts: seq<Shift>,
    features: Features,
    compat: Compat,
    suspicionAvoidance: SuspicionAvoidance)

  datatype Cluster = Cluster(master: Instance, instances: seq<Instance>)

  datatype Instance = Instance(
    token: string,
    channelID: string,
    features: Features,
    suspicionAvoidance: SuspicionAvoidance,
    shifts: seq<Shift>)

  datatype Compat = Compat(cooldown: Cooldown, awaitResponseTimeout: int)

  /** Cooldowns in seconds. `share` and `sell` are read by the validator and the
      command builder although the record in config.go does not declare them. */
  datatype Cooldown = Cooldown(hunt: int, pray: int, share: int, sell: int)

  datatype Features = Features(
    commands: Commands,
    customCommands: seq<CustomCommand>,
    autoSell: AutoSell,
    autoShare: AutoShare,
    logToFile: bool,
    verboseLogToStdout: bool,
    debug: bool)

  /** `amount` is read by the validator although config.go does not declare it. */
  datatype AutoShare = AutoShare(enable: bool, fund: bool, maximumBalance: int, minimumBalance: int, amount: int)

  datatype CustomCommand = CustomCommand(value: string, interval: int, amount: int, pauseBelowBalance: int)

  datatype AutoSell = AutoSell(enable: bool, interval: int, items: seq<string>)

  datatype Commands = Commands(pray: bool, hunt: bool)

  datatype SuspicionAvoidance = SuspicionAvoidance(typing: Typing, messageDelay: MessageDelay)

  datatype Typing = Typing(base: int, speed: int, variation: int)

  datatype MessageDelay = MessageDelay(base: int, variation: int)

  datatype Shift = Shift(state: string, duration: Duration)

  datatype Duration = Duration(base: int, variation: int)

  /** The errors the validator reports, one per message in validate.go. */
  datatype ValidationError =
    | NoClusters
    | InMaster(cluster: string, cause: ValidationError)
    | InInstance(cluster: string, index: nat, cause: ValidationError)
    | NoToken
    | NoChannelId
    | InvalidChannelId
    | NoShifts
    | AutoSellNegativeInterval
    | AutoSellNoItems
    | AutoShareAmountNotPositive
    | CustomCommandNoValue(index: nat)
    | CustomCommandHunt(value: string)
    | CustomCommandOwoh(value: string)
    | CustomCommandNegativeAmount(index: nat)
    | InvalidShiftState(state: string)
    | PrayCooldownNotPositive
    | HuntCooldownNotPositive
    | ShareCooldownNotPositive
    | NegativeAwaitResponseTimeout

  /** A Go `error` result: nil (Pass) or an error. */
  datatype Outcome = Pass | Fail(error: ValidationError)

  // ---------------------------------------------------------------------------
  // String helpers: the regular expression ^[0-9]+$ and strings.Contains
  // ---------------------------------------------------------------------------

  predicate IsDigit(c: char) {
    '0' <= c <= '9'
  }

  /** Whether every character of `s` is a decimal digit. */
  function AllDigits(s: string): (r: bool)
    ensures r <==> forall i :: 0 <= i < |s| ==> IsDigit(s[i])
  {
    if |s| == 0 then true else IsDigit(s[0]) && AllDigits(s[1..])
  }

  /** isValidID: the id matches ^[0-9]+$, so it is non-empty and all digits. */
  function IsValidID(id: string): (r: bool)
    ensures r <==> |id| > 0 && forall i :: 0 <= i < |id| ==> '0' <= id[i] <= '9'
  {
    |id| > 0 && AllDigits(id)
  }

  /** Whether `sub` occurs in `s` starting at position `i`. */
  predicate OccursAt(s: string, sub: string, i: nat) {
    i + |sub| <= |s| && s[i..i + |sub|] == sub
  }

  /** strings.Contains: scans `s` for an occurrence of `sub`; the empty string
      occurs everywhere. */
  function Contains(s: string, sub: string): (r: bool)
    ensures r <==> exists i: nat :: OccursAt(s, sub, i)
  {
    if sub <= s then
      assert OccursAt(s, sub, 0);
      true
    else if |s| == 0 then
      false
    else
      var r := Contains(s[1..], sub);
      if r then
        var i: nat :| OccursAt(s[1..], sub, i);
        assert OccursAt(s, sub, i + 1) by {
          assert s[1..][i..i + |sub|] == s[i + 1..i + 1 + |sub|];
        }
        r
      else
        assert forall i: nat :: OccursAt(s, sub, i) ==> i > 0 && OccursAt(s[1..], sub, i - 1) by {
          forall i: nat | OccursAt(s, sub, i)
            ensures i > 0 && OccursAt(s[1..], sub, i - 1)
          {
            assert s[1..][i - 1..i - 1 + |sub|] == s[i..i + |sub|];
          }
        }
        r
  }

  // ---------------------------------------------------------------------------
  // What an acceptable configuration is
  // ---------------------------------------------------------------------------

  predicate CustomCommandOk(cmd: CustomCommand) {
    && cmd.value != ""
    && !Contains(cmd.value, "owo hunt")
    && !Contains(cmd.value, "owoh")
    && cmd.amount >= 0
  }

  predicate FeaturesOk(features: Features) {
    && (features.autoSell.enable ==> features.autoSell.interval >= 0 && |features.autoSell.items| > 0)
    && (features.autoShare.enable ==> features.autoShare.amount > 0)
    && forall i :: 0 <= i < |features.customCommands| ==> CustomCommandOk(features.customCommands[i])
  }

  predicate ShiftOk(shift: Shift) {
    shift.state == ShiftStateActive || shift.state == ShiftStateDormant
  }

  predicate InstanceOk(instance: Instance) {
    && instance.token != ""
    && IsValidID(instance.channelID)
    && |instance.shifts| > 0
    && FeaturesOk(instance.features)
    && forall i :: 0 <= i < |instance.shifts| ==> ShiftOk(instance.shifts[i])
  }

  predicate ClusterOk(cluster: Cluster) {
    InstanceOk(cluster.master) && forall i :: 0 <= i < |cluster.instances| ==> InstanceOk(cluster.instances[i])
  }

  /** Zero is accepted for the response timeout, although the message in the
      source says "greater than 0". */
  predicate CompatOk(compat: Compat) {
    && compat.cooldown.pray > 0
    && compat.cooldown.hunt > 0
    && compat.cooldown.share > 0
    && compat.awaitResponseTimeout >= 0
  }

  predicate ConfigOk(c: Config) {
    && |c.clusters| > 0
    && (forall ck :: ck in c.clusters ==> ClusterOk(c.clusters[ck]))
    && CompatOk(c.compat)
  }

  /** `order` lists every cluster key exactly once: the order in which Go
      happened to iterate over the map. */
  ghost predicate IsIterationOrder(order: seq<string>, clusters: map<string, Cluster>) {
    && |order| == |clusters|
    && forall ck :: ck in order <==> ck in clusters
  }

  // ---------------------------------------------------------------------------
  // The validators, check by check as the source performs them
  // ---------------------------------------------------------------------------

  /** validateCompat. */
  function ValidateCompat(compat: Compat): (r: Outcome)
    ensures r.Pass? <==> CompatOk(compat)
    ensures compat.cooldown.pray <= 0 ==> r == Fail(PrayCooldownNotPositive)
  {
    if compat.cooldown.pray <= 0 then Fail(PrayCooldownNotPositive)
    else if compat.cooldown.hunt <= 0 then Fail(HuntCooldownNotPositive)
    else if compat.cooldown.share <= 0 then Fail(ShareCooldownNotPositive)
    else if compat.awaitResponseTimeout < 0 then Fail(NegativeAwaitResponseTimeout)
    else Pass
  }

  /** validateShifts, from position `from` on: every state must be active or
      dormant, and the error names the first state that is neither. */
  function ValidateShifts(shifts: seq<Shift>, from: nat): (r: Outcome)
    requires from <= |shifts|
    ensures r.Pass? <==> forall i :: from <= i < |shifts| ==> ShiftOk(shifts[i])
    ensures r.Fail? ==> exists j :: from <= j < |shifts| && !ShiftOk(shifts[j])
                                  && r.error == InvalidShiftState(shifts[j].state)
                                  && forall k :: from <= k < j ==> ShiftOk(shifts[k])
    decreases |shifts| - from
  {
    if from == |shifts| then Pass
    else if !ShiftOk(shifts[from]) then Fail(InvalidShiftState(shifts[from].state))
    else ValidateShifts(shifts, from + 1)
  }

  /** The body of the custom-command loop in validateFeatures, for the command
      at position `i`. */
  function CheckCustomCommand(cmd: CustomCommand, i: nat): (r: Outcome)
    ensures r.Pass? <==> CustomCommandOk(cmd)
    ensures cmd.value == "" ==> r == Fail(CustomCommandNoValue(i))
    ensures cmd.value != "" && Contains(cmd.value, "owo hunt") ==> r == Fail(CustomCommandHunt(cmd.value))
    ensures cmd.value != "" && !Contains(cmd.value, "owo hunt") && Contains(cmd.value, "owoh")
            ==> r == Fail(CustomCommandOwoh(cmd.value))
    ensures cmd.value != "" && !Contains(cmd.value, "owo hunt") && !Contains(cmd.value, "owoh") && cmd.amount < 0
            ==> r == Fail(CustomCommandNegativeAmount(i))
  {
    if cmd.value == "" then Fail(CustomCommandNoValue(i))
    else if Contains(cmd.value, "owo hunt") then Fail(CustomCommandHunt(cmd.value))
    else if Contains(cmd.value, "owoh") then Fail(CustomCommandOwoh(cmd.value))
    else if cmd.amount < 0 then Fail(CustomCommandNegativeAmount(i))
    else Pass
  }

  /** The custom-command loop of validateFeatures, from position `from` on; the
      first rejected command decides the error. */
  function ValidateCustomCommands(cmds: seq<CustomCommand>, from: nat): (r: Outcome)
    requires from <= |cmds|
    ensures r.Pass? <==> forall i :: from <= i < |cmds| ==> CustomCommandOk(cmds[i])
    ensures r.Fail? ==> exists j :: from <= j < |cmds| && r == CheckCustomCommand(cmds[j], j)
                                  && forall k :: from <= k < j ==> CustomCommandOk(cmds[k])
    decreases |cmds| - from
  {
    if from == |cmds| then Pass
    else match CheckCustomCommand(cmds[from], from)
      case Fail(e) => Fail(e)
      case Pass => ValidateCustomCommands(cmds, from + 1)
  }

  /** validateFeatures: auto-sell only when enabled, then auto-share only when
      enabled, then every custom command. */
  function ValidateFeatures(features: Features): (r: Outcome)
    ensures r.Pass? <==> FeaturesOk(features)
    ensures features.autoSell.enable && features.autoSell.interval < 0 ==> r == Fail(AutoSellNegativeInterval)
    ensures !features.autoSell.enable && !features.autoShare.enable ==> r == ValidateCustomCommands(features.customCommands, 0)
  {
    if features.autoSell.enable && features.autoSell.interval < 0 then Fail(AutoSellNegativeInterval)
    else if features.autoSell.enable && |features.autoSell.items| == 0 then Fail(AutoSellNoItems)
    else if features.autoShare.enable && features.autoShare.amount <= 0 then Fail(AutoShareAmountNotPositive)
    else ValidateCustomCommands(features.customCommands, 0)
  }

  /** validateInstance: token, channel id, channel id format, shift list, in that
      order, then the features and the shifts. */
  function ValidateInstance(instance: Instance): (r: Outcome)
    ensures r.Pass? <==> InstanceOk(instance)
    ensures instance.token == "" ==> r == Fail(NoToken)
    ensures instance.token != "" && instance.channelID == "" ==> r == Fail(NoChannelId)
    ensures instance.token != "" && instance.channelID != "" && !IsValidID(instance.channelID)
            ==> r == Fail(InvalidChannelId)
    ensures instance.token != "" && IsValidID(instance.channelID) && |instance.shifts| == 0
            ==> r == Fail(NoShifts)
  {
    if instance.token == "" then Fail(NoToken)
    else if instance.channelID == "" then Fail(NoChannelId)
    else if !IsValidID(instance.channelID) then Fail(InvalidChannelId)
    else if |instance.shifts| == 0 then Fail(NoShifts)
    else match ValidateFeatures(instance.features)
      case Fail(e) => Fail(e)
      case Pass => ValidateShifts(instance.shifts, 0)
  }

  /** The loop over a cluster's instances, from position `from` on. */
  function ValidateInstances(ck: string, instances: seq<Instance>, from: nat): (r: Outcome)
    requires from <= |instances|
    ensures r.Pass? <==> forall i :: from <= i < |instances| ==> InstanceOk(instances[i])
    ensures r.Fail? ==> exists j :: from <= j < |instances| && ValidateInstance(instances[j]).Fail?
                                  && r.error == InInstance(ck, j, ValidateInstance(instances[j]).error)
                                  && forall k :: from <= k < j ==> InstanceOk(instances[k])
    decreases |instances| - from
  {
    if from == |instances| then Pass
    else match ValidateInstance(instances[from])
      case Fail(e) => Fail(InInstance(ck, from, e))
      case Pass => ValidateInstances(ck, instances, from + 1)
  }

  /** The loop over the clusters, visited in `order`: the master first, then the
      instances of each cluster. */
  function ValidateClusters(clusters: map<string, Cluster>, order: seq<string>): (r: Outcome)
    requires forall ck :: ck in order ==> ck in clusters
    ensures r.Pass? <==> forall ck :: ck in order ==> ClusterOk(clusters[ck])
  {
    if |order| == 0 then Pass
    else
      var ck := order[0];
      var cluster := clusters[ck];
      match ValidateInstance(cluster.master)
      case Fail(e) => Fail(InMaster(ck, e))
      case Pass =>
        match ValidateInstances(ck, cluster.instances, 0)
        case Fail(e) => Fail(e)
        case Pass =>
          var rest := ValidateClusters(clusters, order[1..]);
          assert forall k :: k in order <==> k == ck || k in order[1..];
          rest
  }

  /** Config.Validate, with the map iteration order made an explicit input. */
  function Validate(c: Config, order: seq<string>): (r: Outcome)
    requires IsIterationOrder(order, c.clusters)
    ensures r.Pass? <==> ConfigOk(c)
    ensures |c.clusters| == 0 ==> r == Fail(NoClusters)
  {
    if |c.clusters| == 0 then Fail(NoClusters)
    else match ValidateClusters(c.clusters, order)
      case Fail(e) => Fail(e)
      case Pass => ValidateCompat(c.compat)
  }

  /** Whether validation passes does not depend on the order in which the
      clusters are visited; only which error is reported may. */
  lemma ValidateOrderIrrelevant(c: Config, order1: seq<string>, order2: seq<string>)
    requires IsIterationOrder(order1, c.clusters) && IsIterationOrder(order2, c.clusters)
    ensures Validate(c, order1).Pass? == Validate(c, order2).Pass?
  {
  }
}
