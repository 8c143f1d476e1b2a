/**
 * getNextRobotStateAndWarnings: replays commands, in order, on a private
 * draft of the robot state, routing each command to the handler for its kind
 * and collecting the warnings the handlers raise. An undefined command or a
 * command of an unknown kind stops the replay with a hard failure, and no
 * state is produced.
 */
module Sequencer {
  import opened Wrappers
  import opened RobotModel
  import opened AspirateHandler
  import opened DispenseHandler
  import opened PickUpTipHandler
  import opened MagnetHandler

  /** A command: its kind and its parameter payload. */
  datatype Command = Command(command: string, params: Params)

  /** Why a replay was rejected. */
  datatype Fault =
    | UndefinedCommand
    | UnknownCommand(command: string)

  /** The kinds routed to a handler. */
  predicate IsHandled(kind: string)
  {
    kind == "aspirate" || kind == "dispense" || kind == "blowout" || kind == "dropTip" || kind == "pickUpTip"
    || kind == "magneticModule/engageMagnet" || kind == "magneticModule/disengageMagnet"
  }

  /** The kinds the simulation accepts but that change nothing. */
  predicate IsNoOp(kind: string)
  {
    kind == "airGap" || kind == "touchTip" || kind == "delay"
  }

  /** The outcome of one command's handler on `s`: the new state and the warnings it raises. */
  ghost function Handle(cmd: Command, ctx: InvariantContext, s: RobotState): RobotStateAndWarnings
    requires IsHandled(cmd.command)
  {
    var p := cmd.params;
    match cmd.command
    case "aspirate" => Aspirate(p, ctx, s)
    case "dispense" => RobotStateAndWarnings(Dispense(p, ctx, s, false), [])
    case "blowout" => RobotStateAndWarnings(Dispense(p, ctx, s, true), [])
    case "dropTip" => RobotStateAndWarnings(DropTip(p, ctx, s), [])
    case "pickUpTip" => RobotStateAndWarnings(PickUpTip(p, ctx, s), [])
    case "magneticModule/engageMagnet" => RobotStateAndWarnings(SetMagnet(s, p.moduleId, true), [])
    case _ => RobotStateAndWarnings(SetMagnet(s, p.moduleId, false), [])
  }

  /** One command applied to the running state and warnings; `None` stands for an undefined command. */
  ghost function ApplyCommand(c: Option<Command>, ctx: InvariantContext, prev: RobotStateAndWarnings): Result<RobotStateAndWarnings, Fault>
  {
    match c
    case None => Failure(UndefinedCommand)
    case Some(cmd) =>
      if IsHandled(cmd.command) then Success(AppendStep(prev, Handle(cmd, ctx, prev.robotState)))
      else if IsNoOp(cmd.command) then Success(prev)
      else Failure(UnknownCommand(cmd.command))
  }

  /** The commands applied in order; the first failure stops the replay. */
  ghost function ApplyCommands(cs: seq<Option<Command>>, ctx: InvariantContext, prev: RobotStateAndWarnings): Result<RobotStateAndWarnings, Fault>
  {
    if |cs| == 0 then Success(prev)
    else
      match ApplyCommands(cs[..|cs| - 1], ctx, prev)
      case Failure(e) => Failure(e)
      case Success(mid) => ApplyCommand(cs[|cs| - 1], ctx, mid)
  }

  /** Continues a replay that may already have failed. */
  ghost function Then(r: Result<RobotStateAndWarnings, Fault>, cs: seq<Option<Command>>, ctx: InvariantContext): Result<RobotStateAndWarnings, Fault>
  {
    match r
    case Failure(e) => Failure(e)
    case Success(mid) => ApplyCommands(cs, ctx, mid)
  }

  // ---------------------------------------------------------------------------
  // The entry points, on a private draft.

  /** _getNextRobotStateAndWarningsSingleCommand: runs the handler for `c` on the draft, or reports why it cannot. */
  method ApplyToDraft(c: Option<Command>, ctx: InvariantContext, draft: Draft) returns (fault: Option<Fault>)
    modifies draft
    ensures ApplyCommand(c, ctx, old(draft.Value())).Failure? <==> fault.Some?
    ensures ApplyCommand(c, ctx, old(draft.Value())).Failure? ==> fault == Some(ApplyCommand(c, ctx, old(draft.Value())).error)
    ensures ApplyCommand(c, ctx, old(draft.Value())).Success? ==> draft.Value() == ApplyCommand(c, ctx, old(draft.Value())).value
  {
    if c.None? {
      return Some(UndefinedCommand);
    }
    var cmd := c.value;
    fault := None;
    match cmd.command
    case "aspirate" => ForAspirate(cmd.params, ctx, draft);
    case "dispense" => ForDispense(cmd.params, ctx, draft);
    case "blowout" => ForBlowout(cmd.params, ctx, draft);
    case "dropTip" => ForDropTip(cmd.params, ctx, draft);
    case "pickUpTip" => ForPickUpTip(cmd.params, ctx, draft);
    case "airGap" =>
    case "magneticModule/engageMagnet" => ForEngageMagnet(cmd.params, draft);
    case "magneticModule/disengageMagnet" => ForDisengageMagnet(cmd.params, draft);
    case "touchTip" =>
    case "delay" =>
    case _ => fault := Some(UnknownCommand(cmd.command));
  }

  /** getNextRobotStateAndWarningsSingleCommand: one command on `prev`, starting with no warnings. */
  method GetNextRobotStateAndWarningsSingleCommand(c: Option<Command>, ctx: InvariantContext, prev: RobotState)
    returns (r: Result<RobotStateAndWarnings, Fault>)
    ensures r == ApplyCommand(c, ctx, RobotStateAndWarnings(prev, []))
  {
    var draft := new Draft(RobotStateAndWarnings(prev, []));
    var fault := ApplyToDraft(c, ctx, draft);
    if fault.Some? {
      r := Failure(fault.value);
    } else {
      r := Success(draft.Value());
    }
  }

  /** getNextRobotStateAndWarnings: every command in order on `initial`, starting with no warnings. */
  method GetNextRobotStateAndWarnings(cs: seq<Option<Command>>, ctx: InvariantContext, initial: RobotState)
    returns (r: Result<RobotStateAndWarnings, Fault>)
    ensures r == ApplyCommands(cs, ctx, RobotStateAndWarnings(initial, []))
  {
    var start := RobotStateAndWarnings(initial, []);
    var draft := new Draft(start);
    var i := 0;
    while i < |cs|
      invariant 0 <= i <= |cs|
      invariant ApplyCommands(cs[..i], ctx, start) == Success(draft.Value())
    {
      assert cs[..i + 1][..i] == cs[..i];
      var fault := ApplyToDraft(cs[i], ctx, draft);
      if fault.Some? {
        FailureStops(cs, ctx, start, i + 1);
        return Failure(fault.value);
      }
      i := i + 1;
    }
    assert cs[..|cs|] == cs;
    r := Success(draft.Value());
  }

  // ---------------------------------------------------------------------------
  // What the dispatcher promises.

  /**
   * A command is rejected exactly when it is undefined or of a kind that is
   * neither handled nor a no-op; a handled command never fails.
   */
  lemma RejectedIff(c: Option<Command>, ctx: InvariantContext, prev: RobotStateAndWarnings)
    ensures ApplyCommand(c, ctx, prev).Failure? <==> c.None? || (!IsHandled(c.value.command) && !IsNoOp(c.value.command))
    ensures c.None? ==> ApplyCommand(c, ctx, prev) == Failure(UndefinedCommand)
    ensures c.Some? && ApplyCommand(c, ctx, prev).Failure? ==> ApplyCommand(c, ctx, prev) == Failure(UnknownCommand(c.value.command))
  {
  }

  /** airGap, touchTip and delay leave the state and the warnings exactly as they were. */
  lemma NoOpKeepsState(cmd: Command, ctx: InvariantContext, prev: RobotStateAndWarnings)
    requires IsNoOp(cmd.command)
    ensures ApplyCommand(Some(cmd), ctx, prev) == Success(prev)
  {
  }

  /**
   * A handled command takes its state from its handler and appends the
   * handler's warnings after those already raised.
   */
  lemma HandledAppends(cmd: Command, ctx: InvariantContext, prev: RobotStateAndWarnings)
    requires IsHandled(cmd.command)
    ensures var r := ApplyCommand(Some(cmd), ctx, prev);
      && r.Success?
      && r.value.robotState == Handle(cmd, ctx, prev.robotState).robotState
      && r.value.warnings == prev.warnings + Handle(cmd, ctx, prev.robotState).warnings
  {
  }

  /** Once a prefix of the commands fails, the whole replay fails with the same fault. */
  lemma {:induction false} FailureStops(cs: seq<Option<Command>>, ctx: InvariantContext, prev: RobotStateAndWarnings, i: nat)
    requires i <= |cs| && ApplyCommands(cs[..i], ctx, prev).Failure?
    ensures ApplyCommands(cs, ctx, prev) == ApplyCommands(cs[..i], ctx, prev)
    decreases |cs| - i
  {
    if i < |cs| {
      assert cs[..i + 1][..i] == cs[..i];
      FailureStops(cs, ctx, prev, i + 1);
    } else {
      assert cs[..i] == cs;
    }
  }

  /** Replaying `a` and then `b` is replaying `a + b`. */
  lemma {:induction false} ApplyCommandsAppend(a: seq<Option<Command>>, b: seq<Option<Command>>, ctx: InvariantContext, prev: RobotStateAndWarnings)
    ensures ApplyCommands(a + b, ctx, prev) == Then(ApplyCommands(a, ctx, prev), b, ctx)
    decreases |b|
  {
    if |b| == 0 {
      assert a + b == a;
    } else {
      var b0 := b[..|b| - 1];
      assert (a + b)[..|a + b| - 1] == a + b0;
      ApplyCommandsAppend(a, b0, ctx, prev);
    }
  }

  /** A successful replay keeps every warning already raised, in front, and only adds after them. */
  lemma {:induction false} WarningsOnlyGrow(cs: seq<Option<Command>>, ctx: InvariantContext, prev: RobotStateAndWarnings)
    requires ApplyCommands(cs, ctx, prev).Success?
    ensures |prev.warnings| <= |ApplyCommands(cs, ctx, prev).value.warnings|
    ensures ApplyCommands(cs, ctx, prev).value.warnings[..|prev.warnings|] == prev.warnings
  {
    if |cs| > 0 {
      var mid := ApplyCommands(cs[..|cs| - 1], ctx, prev);
      WarningsOnlyGrow(cs[..|cs| - 1], ctx, prev);
      var c := cs[|cs| - 1];
      if c.Some? && IsHandled(c.value.command) {
        var w := ApplyCommands(cs, ctx, prev).value.warnings;
        assert w == mid.value.warnings + Handle(c.value, ctx, mid.value.robotState).warnings;
        assert w[..|prev.warnings|] == mid.value.warnings[..|prev.warnings|];
      }
    }
  }

  /** The single-command entry point is the sequence entry point on a one-command sequence. */
  lemma SingleIsSequenceOfOne(c: Option<Command>, ctx: InvariantContext, s: RobotState)
    ensures ApplyCommands([c], ctx, RobotStateAndWarnings(s, [])) == ApplyCommand(c, ctx, RobotStateAndWarnings(s, []))
  {
    assert [c][..0] == [];
  }

  /**
   * A command does not look at the warnings already raised: run on any
   * warning list, it fails exactly when it fails on none, with the same fault,
   * and otherwise reaches the same state with its own warnings after the
   * given ones.
   */
  lemma ApplyCommandWarningsFree(c: Option<Command>, ctx: InvariantContext, s: RobotState, w: seq<Warning>)
    ensures var alone := ApplyCommand(c, ctx, RobotStateAndWarnings(s, []));
      var r := ApplyCommand(c, ctx, RobotStateAndWarnings(s, w));
      && (r.Failure? <==> alone.Failure?)
      && (r.Failure? ==> r.error == alone.error)
      && (r.Success? ==> r.value == RobotStateAndWarnings(alone.value.robotState, w + alone.value.warnings))
  {
    if c.Some? && IsNoOp(c.value.command) {
      assert w + [] == w;
    }
  }

  /**
   * The commands run one at a time through the single-command entry point:
   * each starts from the state the previous one reached, with no warnings,
   * and its warnings are added after those of the commands before it.
   */
  ghost function ChainSingles(cs: seq<Option<Command>>, ctx: InvariantContext, prev: RobotStateAndWarnings): Result<RobotStateAndWarnings, Fault>
  {
    if |cs| == 0 then Success(prev)
    else
      var mid := ChainSingles(cs[..|cs| - 1], ctx, prev);
      if mid.Failure? then Failure(mid.error)
      else
        var step := ApplyCommand(cs[|cs| - 1], ctx, RobotStateAndWarnings(mid.value.robotState, []));
        if step.Failure? then Failure(step.error)
        else Success(RobotStateAndWarnings(step.value.robotState, mid.value.warnings + step.value.warnings))
  }

  /**
   * Replaying a command list is chaining the single-command entry point over
   * it: the state is threaded from command to command and the warnings are
   * the per-command warnings concatenated in command order.
   */
  lemma {:induction false} SequenceIsChainOfSingles(cs: seq<Option<Command>>, ctx: InvariantContext, prev: RobotStateAndWarnings)
    ensures ApplyCommands(cs, ctx, prev) == ChainSingles(cs, ctx, prev)
  {
    if |cs| > 0 {
      var front := cs[..|cs| - 1];
      SequenceIsChainOfSingles(front, ctx, prev);
      var mid := ApplyCommands(front, ctx, prev);
      if mid.Success? {
        ApplyCommandWarningsFree(cs[|cs| - 1], ctx, mid.value.robotState, mid.value.warnings);
      }
    }
  }

  /** Two commands: the second runs on the state the first reached, and the warnings are the first's followed by the second's. */
  lemma TwoCommands(c1: Option<Command>, c2: Option<Command>, ctx: InvariantContext, s: RobotState)
    ensures var r1 := ApplyCommand(c1, ctx, RobotStateAndWarnings(s, []));
      r1.Failure? ==> ApplyCommands([c1, c2], ctx, RobotStateAndWarnings(s, [])) == Failure(r1.error)
    ensures var r1 := ApplyCommand(c1, ctx, RobotStateAndWarnings(s, []));
      r1.Success? ==>
        var r2 := ApplyCommand(c2, ctx, RobotStateAndWarnings(r1.value.robotState, []));
        && (r2.Failure? ==> ApplyCommands([c1, c2], ctx, RobotStateAndWarnings(s, [])) == Failure(r2.error))
        && (r2.Success? ==>
              ApplyCommands([c1, c2], ctx, RobotStateAndWarnings(s, [])) ==
              Success(RobotStateAndWarnings(r2.value.robotState, r1.value.warnings + r2.value.warnings)))
  {
    var start := RobotStateAndWarnings(s, []);
    SequenceIsChainOfSingles([c1, c2], ctx, start);
    assert [c1, c2][..1] == [c1];
    assert [c1][..0] == [];
    var r1 := ApplyCommand(c1, ctx, start);
    if r1.Success? {
      assert r1.value.robotState == ApplyCommand(c1, ctx, RobotStateAndWarnings(start.robotState, [])).value.robotState;
      assert ChainSingles([c1], ctx, start) == Success(RobotStateAndWarnings(r1.value.robotState, [] + r1.value.warnings));
      assert [] + r1.value.warnings == r1.value.warnings;
    } else {
      assert ChainSingles([c1], ctx, start) == Failure(r1.error);
    }
  }

  // ---------------------------------------------------------------------------
  // No negative volumes.

  /** Every defined command in the list asks for a non-negative volume. */
  ghost predicate VolumesNonNegative(cs: seq<Option<Command>>)
  {
    forall i :: 0 <= i < |cs| && cs[i].Some? ==> cs[i].value.params.volume >= 0.0
  }

  /** A handled command asking for a non-negative volume produces no negative volume. */
  lemma HandleNonNegative(cmd: Command, ctx: InvariantContext, s: RobotState)
    requires IsHandled(cmd.command) && cmd.params.volume >= 0.0 && LiquidNonNegative(s.liquidState)
    ensures LiquidNonNegative(Handle(cmd, ctx, s).robotState.liquidState)
  {
    match cmd.command
    case "aspirate" => AspirateNonNegative(cmd.params, ctx, s);
    case "dispense" => DispenseNonNegative(cmd.params, ctx, s, false);
    case "blowout" => DispenseNonNegative(cmd.params, ctx, s, true);
    case "dropTip" => DispenseNonNegative(cmd.params, ctx, s, true);
    case _ =>
  }

  /**
   * A replay whose commands ask for non-negative volumes, started with no
   * negative volume anywhere, ends with none anywhere.
   */
  lemma {:induction false} ReplayNonNegative(cs: seq<Option<Command>>, ctx: InvariantContext, prev: RobotStateAndWarnings)
    requires VolumesNonNegative(cs) && LiquidNonNegative(prev.robotState.liquidState)
    requires ApplyCommands(cs, ctx, prev).Success?
    ensures LiquidNonNegative(ApplyCommands(cs, ctx, prev).value.robotState.liquidState)
  {
    if |cs| > 0 {
      var front := cs[..|cs| - 1];
      assert VolumesNonNegative(front) by {
        forall i | 0 <= i < |front| && front[i].Some?
          ensures front[i].value.params.volume >= 0.0
        {
          assert front[i] == cs[i];
        }
      }
      ReplayNonNegative(front, ctx, prev);
      var mid := ApplyCommands(front, ctx, prev).value;
      var c := cs[|cs| - 1];
      if IsHandled(c.value.command) {
        HandleNonNegative(c.value, ctx, mid.robotState);
      }
    }
  }
}
