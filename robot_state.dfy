/**
 * The simulated robot: tip state, liquid state and module state, the warnings
 * a command can raise, the invariant context the handlers read, and the draft
 * object that a handler updates in place while a command is replayed.
 */
module RobotModel {
  import opened Liquid

  type PipetteId = string
  type LabwareId = string
  type WellName = string
  type ModuleId = string

  /** Per tiprack, which wells still hold an unused tip; per pipette, whether a tip is on. */
  datatype TipState = TipState(
    tipracks: map<LabwareId, map<WellName, bool>>,
    pipettes: map<PipetteId, bool>)

  /**
   * A place liquid can be: one channel's tip on a pipette, or one well of a
   * labware. The liquid state is one table keyed by location; a location the
   * table does not list holds no ingredients.
   */
  datatype Location =
    | TipOf(pipette: PipetteId, channel: nat)
    | WellOf(labware: LabwareId, well: WellName)

  type LiquidState = map<Location, Contents>

  /** A magnetic module records only whether it is engaged; other module types are opaque here. */
  datatype ModuleState =
    | MagDeckState(engaged: bool)
    | OtherModuleState(moduleType: string)

  datatype ModuleEntry = ModuleEntry(slot: string, moduleState: ModuleState)

  datatype RobotState = RobotState(
    tipState: TipState,
    liquidState: LiquidState,
    modules: map<ModuleId, ModuleEntry>)

  /** The non-fatal warnings the command handlers raise. */
  datatype Warning =
    | AspirateFromPristineWell
    | AspirateMoreThanWellContents

  datatype RobotStateAndWarnings = RobotStateAndWarnings(robotState: RobotState, warnings: seq<Warning>)

  /** A liquid-state update together with the warnings it raised, in order. */
  datatype LiquidAndWarnings = LiquidAndWarnings(liquidState: LiquidState, warnings: seq<Warning>)

  /**
   * Applies one handler's outcome to the running state: the handler's state
   * replaces the old one and its warnings go after those already raised.
   */
  function AppendStep(prev: RobotStateAndWarnings, step: RobotStateAndWarnings): (r: RobotStateAndWarnings)
    ensures r.robotState == step.robotState
    ensures |r.warnings| == |prev.warnings| + |step.warnings|
    ensures r.warnings[..|prev.warnings|] == prev.warnings && r.warnings[|prev.warnings|..] == step.warnings
  {
    RobotStateAndWarnings(step.robotState, prev.warnings + step.warnings)
  }

  /**
   * The labware geometry the handlers consult, abstracted: for a pipette at a
   * named well of a labware, the well each of its channels reaches, channel 0
   * first (one well for a single-channel pipette; a column for an 8-channel
   * pipette on a plate or a tiprack; the same well eight times on a trough).
   */
  datatype InvariantContext = InvariantContext(
    wellsForTips: (PipetteId, LabwareId, WellName) -> seq<WellName>)

  /**
   * A command's parameter payload. Every field a command kind may carry is
   * present; each handler reads only its own.
   */
  datatype Params = Params(
    pipette: PipetteId,
    labware: LabwareId,
    well: WellName,
    volume: real,
    moduleId: ModuleId,
    engageHeight: real,
    flowRate: real,
    offsetFromBottomMm: real)

  /** The contents recorded at a location; an unlisted location is pristine. */
  function At(ls: LiquidState, loc: Location): Contents
  {
    if loc in ls then ls[loc] else map[]
  }

  /** No location holds a negative volume of any ingredient. */
  ghost predicate LiquidNonNegative(ls: LiquidState)
  {
    forall loc :: NonNegative(At(ls, loc))
  }

  /** The draft a handler mutates; the exported entry points hand it a private copy. */
  class Draft {
    var robotState: RobotState
    var warnings: seq<Warning>

    constructor (init: RobotStateAndWarnings)
      ensures Value() == init
    {
      robotState := init.robotState;
      warnings := init.warnings;
    }

    function Value(): RobotStateAndWarnings
      reads this
    {
      RobotStateAndWarnings(robotState, warnings)
    }
  }
}
