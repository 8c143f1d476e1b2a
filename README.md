# Step-generation robot-state simulation, in Dafny

This project models the robot-state simulation at the heart of the Opentrons
Protocol Designer's step generation. Commands are replayed over a robot state,
and each replay yields the next state plus a list of non-fatal warnings.

The robot state has three parts:

- **Tip state.** Whether each pipette carries a tip, and which tiprack wells still hold one.
- **Liquid state.** For every pipette channel and every labware well, a map from ingredient id to volume. A synthetic `AIR` ingredient stands for air drawn into a tip.
- **Module state.** Whether each magnetic module is engaged.

The model has two layers.

- **The sequencer** (`getNextRobotStateAndWarnings`). It is module `Sequencer`.
  - `ApplyToDraft` routes a command by its tag to the handler for that kind.
  - `airGap`, `touchTip` and `delay` change nothing.
  - An undefined command, or one of an unknown kind, is a hard failure, modelled as `Failure(...)`.
  - The two exported entry points work on a fresh `Draft` object. That is the copy-on-write contract of the original: the caller's state is a value and is never touched.
  - The multi-command entry is a `while` loop over the commands. It is proved equal to `ApplyCommands`, a left-to-right fold of `ApplyCommand`.
- **The per-command handlers.** Each one mutates the draft in place (`ForAspirate`, `ForDispense`, `ForBlowout`, `ForDropTip`, `ForPickUpTip`, `ForEngageMagnet`, `ForDisengageMagnet`). Each method is proved equal to a specification function on values: `Aspirate`, `Dispense`, `DropTip`, `PickUpTip` and `SetMagnet`. The properties the handler tests promise are proved as lemmas about those functions.

Liquid bookkeeping lives in module `Liquid`:

- `Total` is the total volume at a location.
- `MergeLiquid` is the component-wise sum.
- `SplitLiquid` is a proportional draw. It clamps at what the source holds and pads the shortfall with `AIR`.

Volumes are `real`, i.e. exact rationals, so splits like 40/20 and 300/8 are exact.

Labware geometry is abstract. `InvariantContext.wellsForTips(pipette, labware, well)` gives the well each channel reaches, in channel order. When every channel of a multi-channel pipette reaches the same well (a trough), the aspirate draws from that well once for all of them and shares the draw out equally. Otherwise each channel works independently, in channel order, through the generic per-channel fold `Channels.ChannelFold`.

The handlers' own source files (forAspirate.js, forDispense.js, forBlowout.js, forDropTip.js, forPickUpTip.js, magnetUpdates.js) are not part of this model. Their behaviour is taken from their test files, which the table cites.

## Model

Source cells give paths from the repository root.

| member | source | states |
|---|---|---|
| Sequencer.ApplyToDraft | protocol-designer/src/step-generation/getNextRobotStateAndWarnings/index.js:18-64 | the dispatcher fails exactly when `ApplyCommand` fails, with the same fault (undefined command, or the unknown tag); otherwise the draft becomes the handler's result appended to it |
| Sequencer.GetNextRobotStateAndWarningsSingleCommand | protocol-designer/src/step-generation/getNextRobotStateAndWarnings/index.js:66-78 | the single-command entry starts from the caller's state with an empty warning list and returns exactly `ApplyCommand` of that, on a private copy |
| Sequencer.GetNextRobotStateAndWarnings | protocol-designer/src/step-generation/getNextRobotStateAndWarnings/index.js:81-99 | the `forEach` over the commands on one draft equals the in-order fold `ApplyCommands` from the initial state with no warnings; an empty list gives back the initial state with no warnings |
| Sequencer.RejectedIff | protocol-designer/src/step-generation/getNextRobotStateAndWarnings/index.js:23-62 | a command fails if and only if it is undefined or its tag is neither handled nor a no-op; undefined gives `UndefinedCommand`, an unknown tag gives `UnknownCommand(tag)` |
| Sequencer.NoOpKeepsState | protocol-designer/src/step-generation/getNextRobotStateAndWarnings/index.js:41-57 | `airGap`, `touchTip` and `delay` leave the state and the warnings exactly as they were |
| Sequencer.HandledAppends | protocol-designer/src/step-generation/getNextRobotStateAndWarnings/index.js:25-53 | each of the seven handled tags takes its new state from its own handler and appends that handler's warnings after those already raised |
| Sequencer.FailureStops | protocol-designer/src/step-generation/getNextRobotStateAndWarnings/index.js:91-97 | once a prefix of the command list fails, the whole replay fails with the same fault |
| Sequencer.ApplyCommandsAppend | protocol-designer/src/step-generation/getNextRobotStateAndWarnings/index.js:91-97 | replaying `a + b` is replaying `a` and then replaying `b` from where `a` ended: state is threaded in list order |
| Sequencer.WarningsOnlyGrow | protocol-designer/src/step-generation/getNextRobotStateAndWarnings/index.js:91-97 | a successful replay keeps every earlier warning, in front and in order, and only adds after them |
| Sequencer.SingleIsSequenceOfOne | protocol-designer/src/step-generation/getNextRobotStateAndWarnings/index.js:66-99 | the single-command entry equals the multi-command entry on a one-element list |
| Sequencer.ApplyCommandWarningsFree | protocol-designer/src/step-generation/getNextRobotStateAndWarnings/index.js:18-64 | a command never reads the warnings already raised: on any warning list it fails exactly when it fails on an empty one, with the same fault, and otherwise reaches the same state with its own warnings after the given ones |
| Sequencer.SequenceIsChainOfSingles | protocol-designer/src/step-generation/getNextRobotStateAndWarnings/index.js:66-99 | replaying a command list equals chaining the single-command entry over it: each command starts from the state the previous one reached with no warnings, the first failure stops the chain, and the warnings are the per-command warnings concatenated in command order |
| Sequencer.TwoCommands | protocol-designer/src/step-generation/getNextRobotStateAndWarnings/index.js:66-99 | two commands in one replay: the second runs on the state the first reached, either failure is the replay's, and the warnings are the first command's followed by the second's |
| Sequencer.HandleNonNegative | protocol-designer/src/step-generation/getNextRobotStateAndWarnings/index.js:25-53 | a handled command asking for a non-negative volume, run on a state with no negative volume anywhere, leaves none anywhere |
| Sequencer.ReplayNonNegative | protocol-designer/src/step-generation/getNextRobotStateAndWarnings/index.js:91-97 | a successful replay of commands asking for non-negative volumes, started with no negative volume anywhere, ends with none anywhere |
| RobotModel.AppendStep | protocol-designer/src/step-generation/getNextRobotStateAndWarnings/index.js:17-22 | a handler's step replaces the draft's robot state and appends its warnings: the old warnings stay as the prefix, the step's are the suffix |
| AspirateHandler.ForAspirate | protocol-designer/src/step-generation/test-with-flow/forAspirate.test.js:47-395 | the in-place aspirate on the draft equals `Aspirate` of the old state appended to the draft |
| AspirateHandler.Aspirate | protocol-designer/src/step-generation/test-with-flow/forAspirate.test.js:47-75 | an aspirate leaves the tip state and the modules unchanged |
| AspirateHandler.AspirateFromSeparateWells | protocol-designer/src/step-generation/test-with-flow/forAspirate.test.js:235-317 | the channel-by-channel loop over the plate wells equals the per-channel fold `AspirateSeparateWells` |
| AspirateHandler.DrawOne | protocol-designer/src/step-generation/test-with-flow/forAspirate.test.js:47-218 | one channel's draw: the tip gains the split-off liquid, the well keeps the rest, and the warning is the one for that well |
| AspirateHandler.AspirateFromSharedWell | protocol-designer/src/step-generation/test-with-flow/forAspirate.test.js:320-395 | the trough path on the draft equals `AspirateSharedWell`: one draw of n × volume from the common well, shared out to every tip |
| AspirateHandler.DrawShared | protocol-designer/src/step-generation/test-with-flow/forAspirate.test.js:320-395 | from a trough, each tip's share is a draw of `volume` from 1/n of the well, the well loses n × volume, and there is one warning for the well rather than one per channel |
| AspirateHandler.DrawVolumes | protocol-designer/src/step-generation/test-with-flow/forAspirate.test.js:47-185 | the tip always gains exactly the requested volume; the well loses it, or goes to 0 when it held less |
| AspirateHandler.QuietIffConserved | protocol-designer/src/step-generation/test-with-flow/forAspirate.test.js:47-185 | on a non-pristine well, no warning if and only if the draw conserves liquid (no air added); otherwise the only warning is over-aspiration |
| AspirateHandler.DrawFromPristine | protocol-designer/src/step-generation/test-with-flow/forAspirate.test.js:235-276 | drawing from a pristine well fills the tip with air for the whole volume, leaves the well `{}` and raises one pristine-well warning |
| AspirateHandler.AspirateSeparateChannel | protocol-designer/src/step-generation/test-with-flow/forAspirate.test.js:235-317 | on distinct wells, channel i's tip and well end up exactly as a one-channel draw from that well alone would leave them |
| AspirateHandler.AspirateWarningsPerWell | protocol-designer/src/step-generation/test-with-flow/forAspirate.test.js:278-317 | on distinct wells, the warnings are each well's own warning in channel order |
| AspirateHandler.AspirateFrame | protocol-designer/src/step-generation/test-with-flow/forAspirate.test.js:235-317 | every location other than the pipette's channels in use and the wells they reach is unchanged |
| AspirateHandler.TotalDivided | protocol-designer/src/step-generation/test-with-flow/forAspirate.test.js:320-395 | one channel's share of a trough holds 1/n of its total, and is non-negative when the well is |
| AspirateHandler.ShareWarning | protocol-designer/src/step-generation/test-with-flow/forAspirate.test.js:320-395 | the trough warning for n channels of `volume` each is pristine for an empty well, over-aspiration exactly when `volume` exceeds the well's total divided by n, and none otherwise |
| AspirateHandler.SharedDrawVolumes | protocol-designer/src/step-generation/test-with-flow/forAspirate.test.js:320-395 | each trough tip gains exactly `volume`; the trough loses n × volume, or goes to 0 when it held less |
| AspirateHandler.SharedShortfall | protocol-designer/src/step-generation/test-with-flow/forAspirate.test.js:342-395 | on a trough shortfall, each tip gets 1/n of every ingredient plus air for `volume - total/n`, and the trough keeps its ingredients at 0 |
| AspirateHandler.SharedWellEffect | protocol-designer/src/step-generation/test-with-flow/forAspirate.test.js:320-395 | on the trough path, every tip in use gains its old contents merged with one draw of `volume` from 1/n of the well, and the trough is left as after one draw of n × volume |
| AspirateHandler.SharedWellWarnings | protocol-designer/src/step-generation/test-with-flow/forAspirate.test.js:320-395 | on the trough path exactly one warning is raised for the well: pristine when it lists nothing, over-aspiration exactly when `volume` exceeds the total divided by n, none otherwise |
| AspirateHandler.DrawNonNegative | protocol-designer/src/step-generation/test-with-flow/forAspirate.test.js:47-218 | one channel's draw of a non-negative volume from non-negative contents leaves the tip and the well non-negative |
| AspirateHandler.SharedWellNonNegative | protocol-designer/src/step-generation/test-with-flow/forAspirate.test.js:320-395 | the common-well draw of a non-negative volume keeps every location non-negative |
| AspirateHandler.AspirateNonNegative | protocol-designer/src/step-generation/test-with-flow/forAspirate.test.js:47-395 | an aspirate of a non-negative volume, on either path, never produces a negative volume at any location |
| AspirateHandler.AspirateIsShared | protocol-designer/src/step-generation/test-with-flow/forAspirate.test.js:320-395 | when every channel reaches one well, the command's liquid state and warnings are those of the common-well draw |
| AspirateScenarios.DrawFiftyOfTwoHundred | protocol-designer/src/step-generation/test-with-flow/forAspirate.test.js:47-75 | 50 from a 200 well: tip 50, well 150, no warning |
| AspirateScenarios.DrawEverythingPlusAir | protocol-designer/src/step-generation/test-with-flow/forAspirate.test.js:77-112 | 300 from 200: tip 200 plus 100 of air, well entry kept at 0, one over-aspiration warning |
| AspirateScenarios.DrawFromTwoIngredients | protocol-designer/src/step-generation/test-with-flow/forAspirate.test.js:114-147 | 60 from {200, 100}: tip {40, 20}, well {160, 80}, no warning |
| AspirateScenarios.DrawTwoIngredientsPlusAir | protocol-designer/src/step-generation/test-with-flow/forAspirate.test.js:149-185 | 150 from {60, 70}: tip {60, 70} plus 20 of air, both well entries at 0, one over-aspiration warning |
| AspirateScenarios.DrawIntoUsedTip | protocol-designer/src/step-generation/test-with-flow/forAspirate.test.js:188-218 | a tip holding 30 ends with 80 after drawing 50; the well goes to 150 |
| AspirateScenarios.ColumnWarnings | protocol-designer/src/step-generation/test-with-flow/forAspirate.test.js:235-317 | down column 1 with A1 = 200, B1 = 150 and the rest pristine, the per-well warnings are 6 pristine ones at 50 per channel, and 2 over-aspirations followed by 6 pristine ones at 250 |
| AspirateScenarios.PristineRows | protocol-designer/src/step-generation/test-with-flow/forAspirate.test.js:235-276 | each pristine row from C down adds one pristine-well warning |
| AspirateScenarios.EightChannelPlate | protocol-designer/src/step-generation/test-with-flow/forAspirate.test.js:235-317 | the 8-channel aspirate's own warnings on that column, in channel order, for 50 and for 250 per channel |
| AspirateScenarios.ColumnDraws | protocol-designer/src/step-generation/test-with-flow/forAspirate.test.js:278-317 | 250 into a fresh tip: from 200 the tip holds 200 plus 50 of air and the well 0; from 150, 150 plus 100 of air and 0; from a pristine well, 250 of air and the well stays `{}` |
| AspirateScenarios.EightChannelPlateContents | protocol-designer/src/step-generation/test-with-flow/forAspirate.test.js:278-317 | after the 8-channel aspirate of 250 down column 1, tip 0 holds 200 of ingred1 and 50 of air, tip 1 holds 150 and 100 of air, and A1 and B1 hold 0 of ingred1 |
| AspirateScenarios.EightChannelPlatePristineRows | protocol-designer/src/step-generation/test-with-flow/forAspirate.test.js:278-317 | in the same command, each tip of rows C to H holds 250 of air and its well stays pristine |
| AspirateScenarios.DrawFromRowBIntoUsedTip | protocol-designer/src/step-generation/test-with-flow/forAspirate.test.js:234-276 | 50 from a 150 well into a tip holding 30: tip 80, well 100 |
| AspirateScenarios.DrawPristineIntoUsedTip | protocol-designer/src/step-generation/test-with-flow/forAspirate.test.js:234-276 | 50 from a pristine well into a tip holding 30: the tip keeps its 30 and gains 50 of air, the well stays `{}` |
| AspirateScenarios.UsedTipsPlateContents | protocol-designer/src/step-generation/test-with-flow/forAspirate.test.js:234-276 | after the 8-channel aspirate of 50 down column 1 into tips each holding 30 of ingred1, tips 0 and 1 hold 80 of ingred1, A1 holds 150 and B1 holds 100 |
| AspirateScenarios.UsedTipsPristineRows | protocol-designer/src/step-generation/test-with-flow/forAspirate.test.js:234-276 | in the same command, each tip of rows C to H holds 30 of ingred1 and 50 of air, and its well stays pristine |
| AspirateScenarios.AspirateTrough | protocol-designer/src/step-generation/test-with-flow/forAspirate.test.js:320-395 | for the whole aspirate command on a trough, tip i ends as its old contents merged with one draw of `volume` from 1/n of the well |
| AspirateScenarios.AspirateTroughWarnings | protocol-designer/src/step-generation/test-with-flow/forAspirate.test.js:320-395 | for the whole aspirate command on a trough, the warnings are one for the well: pristine, over-aspiration exactly when `volume` exceeds total/n, or none |
| AspirateScenarios.TroughWithinContents | protocol-designer/src/step-generation/test-with-flow/forAspirate.test.js:323-330 | 20 per channel from a 300 trough: 20 in each tip, 140 left, no warning |
| AspirateScenarios.TroughShortfall | protocol-designer/src/step-generation/test-with-flow/forAspirate.test.js:331-341 | 50 per channel from a 300 trough: each tip 37.5 plus 12.5 of air, the trough at 0, exactly one warning |
| AspirateScenarios.TroughPristine | protocol-designer/src/step-generation/test-with-flow/forAspirate.test.js:342-349 | a pristine trough stays `{}`, each tip gets 20 of air, one pristine-well warning |
| Liquid.SplitWithinContents | protocol-designer/src/step-generation/test-with-flow/forAspirate.test.js:114-147 | a draw within the contents keeps every ingredient key on both sides, and each ingredient's draw is proportional to its share (dest[k] × total = volume × src[k]); source plus draw is the original, both are non-negative, and the totals are `volume` and `total - volume` |
| Liquid.ProportionalDraw | protocol-designer/src/step-generation/test-with-flow/forAspirate.test.js:114-147 | the proportional draw gives each ingredient its share of `volume`, takes exactly `volume`, leaves `total - volume`, and never goes negative |
| Liquid.SplitOverdraw | protocol-designer/src/step-generation/test-with-flow/forAspirate.test.js:77-112 | an over-draw keeps every source key at 0, moves every ingredient whole, and adds exactly the shortfall as air |
| Liquid.SplitPristine | protocol-designer/src/step-generation/test-with-flow/forAspirate.test.js:342-349 | a draw from `{}` leaves `{}` and is all air |
| Liquid.SplitEverything | protocol-designer/src/step-generation/test-with-flow/forBlowout.test.js:30-65 | drawing the whole total moves every ingredient and leaves each entry at 0 |
| Liquid.SplitTotals | protocol-designer/src/step-generation/test-with-flow/forAspirate.test.js:47-185 | for any non-negative draw, the draw totals `volume` and the source totals `total - volume`, or 0 on a shortfall |
| Liquid.SplitNonNegative | protocol-designer/src/step-generation/test-with-flow/forAspirate.test.js:77-185 | splitting a non-negative volume out of non-negative contents leaves both the source and the draw non-negative, within the contents and past them |
| Liquid.MergeNonNegative | protocol-designer/src/step-generation/test-with-flow/forAspirate.test.js:188-218 | merging non-negative contents gives non-negative contents |
| Liquid.TotalMerge | protocol-designer/src/step-generation/test-with-flow/forAspirate.test.js:188-218 | merging two contents adds their totals |
| Liquid.TotalBounds | protocol-designer/src/step-generation/test-with-flow/forAspirate.test.js:47-75 | non-negative contents have a non-negative total that bounds each ingredient |
| Liquid.LocationTotalVolume | protocol-designer/src/step-generation/test-with-flow/forAspirate.test.js:77-112 | the loop summing a location's ingredient volumes computes `Total` |
| Liquid.Split | protocol-designer/src/step-generation/test-with-flow/forAspirate.test.js:47-185 | the imperative split computes the total and then `SplitLiquid` |
| Liquid.SplitWithTotal | protocol-designer/src/step-generation/test-with-flow/forAspirate.test.js:47-185 | given the contents' total, the split is `SplitLiquid`: the whole contents plus air on an over-draw, all zeros from an empty total, a proportional draw otherwise |
| Channels.FoldChannel | protocol-designer/src/step-generation/test-with-flow/forAspirate.test.js:235-317 | in a fold over distinct wells, each channel's tip and well end as that channel's step alone leaves them |
| Channels.FoldKeepsOthers | protocol-designer/src/step-generation/test-with-flow/forAspirate.test.js:235-317 | a fold leaves every location outside the channels in use and their wells unchanged |
| Channels.FoldWarningsPerWell | protocol-designer/src/step-generation/test-with-flow/forAspirate.test.js:278-317 | over distinct wells, the fold's warnings are each original well's warning in channel order |
| Channels.MergeShareIntoTips | protocol-designer/src/step-generation/test-with-flow/forAspirate.test.js:320-395 | the loop adding a trough share to each tip equals `MergeIntoTips` |
| Channels.MergeIntoTipsReads | protocol-designer/src/step-generation/test-with-flow/forAspirate.test.js:320-395 | after sharing out, every tip in use holds its old contents plus the share; every other location is unchanged |
| Channels.FoldTipOnly | protocol-designer/src/step-generation/test-with-flow/forDropTip.test.js:94-133 | when a step's tip result does not depend on the well, each channel's tip after the fold is the step applied to its own old tip, whichever wells the channels share |
| Channels.FoldIntoOneWellContents | protocol-designer/src/step-generation/test-with-flow/forDropTip.test.js:94-133 | when every channel reaches one well and each step merges what the tip gives into the well, the shared well ends as its old contents merged with each channel's contribution in channel order |
| Channels.MergeFromEmptyTips | protocol-designer/src/step-generation/test-with-flow/forDropTip.test.js:94-133 | channels whose tips are empty add nothing to the shared well |
| Channels.FoldNonNegative | protocol-designer/src/step-generation/test-with-flow/forAspirate.test.js:235-317 | a fold whose step keeps a tip and a well non-negative keeps every location non-negative |
| Channels.MergeIntoTipsNonNegative | protocol-designer/src/step-generation/test-with-flow/forAspirate.test.js:320-395 | sharing non-negative contents out to the tips keeps every location non-negative |
| DispenseHandler.ForBlowout | protocol-designer/src/step-generation/test-with-flow/forBlowout.test.js:30-65 | the in-place blow-out equals a full-volume `Dispense` of the old state appended to the draft, with no warnings |
| DispenseHandler.ForDropTip | protocol-designer/src/step-generation/test-with-flow/forDropTip.test.js:24-133 | the in-place drop-tip equals `DropTip` of the old state appended to the draft, with no warnings |
| DispenseHandler.ForDispense | protocol-designer/src/step-generation/getNextRobotStateAndWarnings/index.js:29-31 | the in-place dispense equals a partial `Dispense` of the old state appended to the draft, with no warnings |
| DispenseHandler.DispenseUpdateLiquidState | protocol-designer/src/step-generation/test-with-flow/forDropTip.test.js:94-133 | the channel-by-channel loop equals the per-channel fold of `Release` |
| DispenseHandler.ReleaseOne | protocol-designer/src/step-generation/test-with-flow/forBlowout.test.js:30-65 | one channel's release equals the `Release` step |
| DispenseHandler.Dispense | protocol-designer/src/step-generation/test-with-flow/forBlowout.test.js:30-65 | a dispense or blow-out leaves the tip state and the modules unchanged |
| DispenseHandler.DropTip | protocol-designer/src/step-generation/test-with-flow/forDropTip.test.js:38-87 | a drop-tip clears only this pipette's tip flag; every other flag, the tipracks and the modules are unchanged |
| DispenseHandler.ReleaseAll | protocol-designer/src/step-generation/test-with-flow/forBlowout.test.js:30-65 | a full-volume release keeps the tip's keys, empties it to 0, and the well gains exactly what the tip held; a non-empty tip's ingredients go to 0 and merge whole into the well; a tip whose total is 0 is kept and only its keys, at 0, reach the well |
| DispenseHandler.ReleaseVolumes | protocol-designer/src/step-generation/getNextRobotStateAndWarnings/index.js:29-31 | a partial release adds `volume` to the well and takes it from the tip, or leaves the tip at 0 |
| DispenseHandler.ReleaseEmptyTip | protocol-designer/src/step-generation/test-with-flow/forDropTip.test.js:38-87 | releasing an empty tip changes nothing |
| DispenseHandler.DispenseSeparateChannel | protocol-designer/src/step-generation/test-with-flow/forBlowout.test.js:30-65 | on distinct wells, channel i's tip and well end as one release from that well alone leaves them |
| DispenseHandler.DispenseFrame | protocol-designer/src/step-generation/test-with-flow/forBlowout.test.js:30-65 | a dispense leaves every location outside the channels in use and their wells unchanged |
| DispenseHandler.FullDispenseEmptiesTips | protocol-designer/src/step-generation/test-with-flow/forDropTip.test.js:94-133 | after a full-volume dispense every tip in use holds a total of 0 |
| DispenseHandler.FullDispenseIntoOneWell | protocol-designer/src/step-generation/test-with-flow/forDropTip.test.js:104-132 | conservation: when all channels release into one well, it gains exactly the sum of what the tips held |
| DispenseHandler.FullDispenseTip | protocol-designer/src/step-generation/test-with-flow/forDropTip.test.js:94-133 | after a full-volume dispense, tip i holds its old ingredients at 0, or is unchanged when its total is 0, whichever wells the channels reach |
| DispenseHandler.FullDispenseIntoOneWellContents | protocol-designer/src/step-generation/test-with-flow/forDropTip.test.js:94-133 | when every channel reaches one well, that well ends as its old contents merged with each tip's liquid in channel order (a tip whose total is 0 gives only its keys, at 0) |
| DispenseHandler.EightChannelDropIntoTrash | protocol-designer/src/step-generation/test-with-flow/forDropTip.test.js:94-133 | dropping the 8-channel's tips into trash A1 with tip 0 holding 150 of ingred1 and the rest empty: tip 0 ends at 0 of ingred1, tips 1 to 7 stay empty, A1 holds 150 of ingred1, and this pipette's tip flag becomes false with every other pipette's as it was |
| DispenseHandler.EmptyTipsKeepLiquid | protocol-designer/src/step-generation/test-with-flow/forDropTip.test.js:38-87 | a full-volume dispense from empty tips changes no location |
| DispenseHandler.DropEmptyTips | protocol-designer/src/step-generation/test-with-flow/forDropTip.test.js:24-87 | dropping empty tips gives the input state with only this pipette's tip flag set to false |
| DispenseHandler.ReleaseOneHundredFifty | protocol-designer/src/step-generation/test-with-flow/forBlowout.test.js:30-65 | releasing a single tip of 150 of ingred1 into a well: tip entry kept at 0, the well gains 150 |
| DispenseHandler.ReleaseNonNegative | protocol-designer/src/step-generation/test-with-flow/forBlowout.test.js:30-65 | one channel's release keeps its tip and well non-negative, in full-volume mode or with a non-negative volume |
| DispenseHandler.DispenseNonNegative | protocol-designer/src/step-generation/test-with-flow/forDropTip.test.js:94-133 | a dispense with a non-negative volume, a blow-out and a drop-tip never produce a negative volume at any location |
| PickUpTipHandler.ConsumeTips | protocol-designer/src/step-generation/test-with-flow/forPickUpTip.test.js:60-86 | the loop over the channels' tiprack wells marks exactly those wells used, every other well as it was |
| PickUpTipHandler.ConsumedNext | protocol-designer/src/step-generation/test-with-flow/forPickUpTip.test.js:60-86 | marking one more channel's well is marking it after those before |
| PickUpTipHandler.ForPickUpTip | protocol-designer/src/step-generation/test-with-flow/forPickUpTip.test.js:33-86 | the in-place pick-up equals `PickUpTip` of the old state appended to the draft, with no warnings |
| PickUpTipHandler.PickUpTipChanges | protocol-designer/src/step-generation/test-with-flow/forPickUpTip.test.js:33-86 | a pick-up sets this pipette's tip flag, marks exactly the reached wells of the named tiprack used, and leaves every other well, tiprack, pipette flag, the liquid and the modules unchanged |
| PickUpTipHandler.PickUpScenarios | protocol-designer/src/step-generation/test-with-flow/forPickUpTip.test.js:33-86 | single-channel at A1 uses only A1; 8-channel at A1 uses A1 to H1 |
| MagnetHandler.SetMagnetInPlace | protocol-designer/src/step-generation/test-with-flow/updateMagneticModule.test.js:40-92 | writing the engaged flag on the draft equals `SetMagnet` of the old state, with no warnings |
| MagnetHandler.ForEngageMagnet | protocol-designer/src/step-generation/test-with-flow/updateMagneticModule.test.js:40-64 | engage on the draft equals `SetMagnet(..., true)` of the old state, with no warnings; the engage height is not recorded |
| MagnetHandler.ForDisengageMagnet | protocol-designer/src/step-generation/test-with-flow/updateMagneticModule.test.js:67-92 | disengage on the draft equals `SetMagnet(..., false)` of the old state, with no warnings |
| MagnetHandler.SetMagnetEffect | protocol-designer/src/step-generation/test-with-flow/updateMagneticModule.test.js:40-51 | on a magnetic module, the module becomes `engaged` as asked and keeps its slot; every other module, the tips and the liquid are unchanged |
| MagnetHandler.SetMagnetAlreadySet | protocol-designer/src/step-generation/test-with-flow/updateMagneticModule.test.js:53-64 | engaging an engaged module, or disengaging a disengaged one, gives back the identical state |
| MagnetHandler.SetMagnetIdempotent | protocol-designer/src/step-generation/test-with-flow/updateMagneticModule.test.js:53-92 | setting the magnet twice is setting it once |
| MagnetHandler.SetMagnetRoundTrip | protocol-designer/src/step-generation/test-with-flow/updateMagneticModule.test.js:40-79 | engaging a disengaged module and then disengaging it gives back the original state, and the other way round |

## Left out

- The handler source files (forAspirate.js, forDispense.js, forBlowout.js, forDropTip.js, forPickUpTip.js, magnetUpdates.js) are not part of this model. The handlers are modelled from their tests.
- The liquid helpers the handlers use (splitLiquid, mergeLiquid, getLocationTotalVolume, dispenseUpdateLiquidState) are not part of this model either. They are written here from their behaviour in the tests.
- Partial-volume `dispense` has no shown test. `Dispense` with `useFullVolume` false follows the described behaviour: split `volume` out of the tip and merge it into the well. No dispense warnings are modelled.
- Labware and pipette geometry (the labware definition JSON, the trough flag, the 384-plate layout) is abstracted to `InvariantContext.wellsForTips`. A trough is recognised as all channels reaching one well.
- `flowRate`, `offsetFromBottomMm` and `engageHeight` are carried in `Params` but never affect the state, as in the tests.
- The skipped tests (384-plate B row, aspirate with no tip, missing tip state) define no behaviour and are not modelled.
- A tiprack, a location or a module the state does not list is read as empty (`map[]`) or left unchanged. The original would index an undefined object.
- immer's `produce` is modelled as a fresh `Draft` holding a copy of the caller's value. Structural sharing is not modelled.
- Floating-point rounding is not modelled: volumes are exact rationals.
- Blow-out takes no volume: its parameters are the pipette, the labware, the well, the flow rate and the offset. `DispenseHandler.ForBlowout` releases each tip's whole `Total` and ignores the `volume` field that `Params` carries for other commands.
- A full-volume release from a tip whose total is 0 is pinned by no test. The model's choice is to keep the tip as it is and merge its entries, at 0, into the well (`DispenseHandler.ReleaseAll`, `DispenseHandler.ReleaseEmptyTip`).
- Sequencer.ReplayNonNegative: stated for commands whose `volume` is non-negative, as are `AspirateHandler.AspirateNonNegative` and `DispenseHandler.DispenseNonNegative` for a partial dispense. The handlers do not check the sign of `volume`, and a negative one makes the proportional draw negative.
- The trough's per-ingredient equal share is stated through `Divided`, `SharedShortfall` and the trough scenarios, not for arbitrary contents within the well's total. The within-contents case is proved only as totals (`SharedDrawVolumes`).
