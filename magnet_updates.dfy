/**
 * Engaging and disengaging a magnetic module: the module's recorded state
 * says whether the magnets are engaged, and nothing else about the robot
 * changes. The engage height is a hardware setting and is not recorded.
 */
module MagnetHandler {
  import opened RobotModel

  /**
   * The robot state with the magnetic module `moduleId` recorded as `engaged`.
   * A module the state does not list, or one that is not a magnetic module,
   * is left as it is.
   */
  function SetMagnet(s: RobotState, moduleId: ModuleId, engaged: bool): RobotState
  {
    if moduleId in s.modules && s.modules[moduleId].moduleState.MagDeckState? then
      s.(modules := s.modules[moduleId := s.modules[moduleId].(moduleState := MagDeckState(engaged))])
    else s
  }

  /** Whether `moduleId` is a magnetic module recorded as `engaged`. */
  predicate MagnetIs(s: RobotState, moduleId: ModuleId, engaged: bool)
  {
    moduleId in s.modules && s.modules[moduleId].moduleState == MagDeckState(engaged)
  }

  /** forEngageMagnet. */
  method ForEngageMagnet(params: Params, draft: Draft)
    modifies draft
    ensures draft.Value() ==
      AppendStep(old(draft.Value()), RobotStateAndWarnings(SetMagnet(old(draft.robotState), params.moduleId, true), []))
  {
    SetMagnetInPlace(params.moduleId, true, draft);
  }

  /** forDisengageMagnet. */
  method ForDisengageMagnet(params: Params, draft: Draft)
    modifies draft
    ensures draft.Value() ==
      AppendStep(old(draft.Value()), RobotStateAndWarnings(SetMagnet(old(draft.robotState), params.moduleId, false), []))
  {
    SetMagnetInPlace(params.moduleId, false, draft);
  }

  /** Writes the module's `engaged` flag on the draft, when it is a magnetic module. */
  method SetMagnetInPlace(moduleId: ModuleId, engaged: bool, draft: Draft)
    modifies draft
    ensures draft.Value() ==
      AppendStep(old(draft.Value()), RobotStateAndWarnings(SetMagnet(old(draft.robotState), moduleId, engaged), []))
  {
    var modules := draft.robotState.modules;
    if moduleId in modules && modules[moduleId].moduleState.MagDeckState? {
      var entry := modules[moduleId];
      draft.robotState := draft.robotState.(modules := modules[moduleId := entry.(moduleState := MagDeckState(engaged))]);
    }
  }

  /**
   * On a magnetic module, setting the magnet records exactly that state; the
   * module keeps its slot, every other module, the tips and the liquid are
   * as they were.
   */
  lemma SetMagnetEffect(s: RobotState, moduleId: ModuleId, engaged: bool, other: ModuleId)
    requires moduleId in s.modules && s.modules[moduleId].moduleState.MagDeckState?
    ensures var r := SetMagnet(s, moduleId, engaged);
      && MagnetIs(r, moduleId, engaged)
      && r.modules[moduleId].slot == s.modules[moduleId].slot
      && r.tipState == s.tipState && r.liquidState == s.liquidState
      && r.modules.Keys == s.modules.Keys
      && (other != moduleId && other in s.modules ==> r.modules[other] == s.modules[other])
  {
  }

  /** Setting the magnet to the state it already has changes nothing. */
  lemma SetMagnetAlreadySet(s: RobotState, moduleId: ModuleId, engaged: bool)
    requires MagnetIs(s, moduleId, engaged)
    ensures SetMagnet(s, moduleId, engaged) == s
  {
    var e := s.modules[moduleId];
    assert e.(moduleState := MagDeckState(engaged)) == e;
    assert s.modules[moduleId := e] == s.modules;
  }

  /** Engaging twice, or disengaging twice, is the same as doing it once. */
  lemma SetMagnetIdempotent(s: RobotState, moduleId: ModuleId, engaged: bool)
    ensures SetMagnet(SetMagnet(s, moduleId, engaged), moduleId, engaged) == SetMagnet(s, moduleId, engaged)
  {
    if moduleId in s.modules && s.modules[moduleId].moduleState.MagDeckState? {
      SetMagnetEffect(s, moduleId, engaged, moduleId);
      SetMagnetAlreadySet(SetMagnet(s, moduleId, engaged), moduleId, engaged);
    }
  }

  /** Engaging a disengaged magnet and then disengaging it gives back the state it started from, and the other way round. */
  lemma SetMagnetRoundTrip(s: RobotState, moduleId: ModuleId, engaged: bool)
    requires MagnetIs(s, moduleId, !engaged)
    ensures SetMagnet(SetMagnet(s, moduleId, engaged), moduleId, !engaged) == s
  {
    var e := s.modules[moduleId];
    assert e.(moduleState := MagDeckState(engaged)).(moduleState := MagDeckState(!engaged)) == e;
    assert s.modules[moduleId := e] == s.modules;
  }
}
