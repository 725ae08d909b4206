/** The pipeline agent's reaction to a finished Tekton run: the order of its effects for every combination
    of what its collaborators do, and what its idempotency key guarantees over many runs. */
module PipelineAgent {
  import opened Wrappers
  import opened IdempotencyStore
  import Text

  // ---- collaborators and effects -------------------------------------------------------------------------

  datatype Result<+T> = Returns(value: T) | Throws

  datatype Preflight = Passed | Blocked | Skipped
  datatype YamlStatus = Changed | Unchanged | Error
  datatype YamlUpdate = YamlUpdate(status: YamlStatus, changedFiles: seq<string>)

  /** `approved` is whether the field is exactly `true`; a risk level that is not a string is `None`. */
  datatype Structured = Structured(approved: bool, riskLevel: Option<string>)

  /** A governance task result; structured data that is missing or not an object is `None`. */
  datatype Governance = Governance(succeeded: bool, data: Option<Structured>)

  datatype SyncStatus = Triggered | SyncFailed | SyncSkipped

  datatype Config = Config(preflight: bool, governance: bool, runtime: bool, sync: bool, buildFix: bool)

  datatype EventType = BuildCompleted | DeploymentFailed | YamlUpdated | SyncRequested

  /** How every call of one run turns out; `publish` and what follows say whether publishes and store calls
      succeed (the last two are those made for a blocked preflight, inside the try block). Whether discarding
      changes succeeds makes no difference: the code throws either way. */
  datatype Calls = Calls(
    preflight: Result<Preflight>, ensureRepository: Result<()>, updateImage: Result<YamlUpdate>,
    governance: Result<Governance>, commit: Result<bool>, sync: Result<SyncStatus>,
    buildFix: Result<()>, publish: EventType -> bool, get: bool, begin: bool, setProcessed: bool, setFailed: bool,
    publishBlocked: bool, setFailedBlocked: bool)

  datatype Effect =
    | Published(event: EventType)
    | CommitCalled(files: seq<string>)
    | DiscardCalled(files: seq<string>)
    | SyncCalled
    | MarkedProcessed

  datatype Ending = RunSucceeded | RunFailed | RunThrew

  /** `getYamlGovernanceBlockReason`, as whether there is a reason. */
  function BlocksChange(data: Option<Structured>): bool
  {
    if data.None? then true
    else if !data.value.approved then true
    else if data.value.riskLevel == Some("high") || data.value.riskLevel == Some("critical") then true
    else data.value.riskLevel.None?
  }

  // ---- the try block, stage by stage -----------------------------------------------------------------------

  /** How the try block ends: at its end, at the blocked preflight's early return, or by throwing. */
  datatype TryEnd = Done | ReturnedBlocked | Raised

  function Deploy(g: Config, c: Calls): (seq<Effect>, TryEnd)
  {
    if g.preflight && c.preflight.Throws? then ([], Raised)
    else if g.preflight && c.preflight.value.Blocked? then
      if !c.publishBlocked then ([], Raised)
      else ([Published(DeploymentFailed)], if c.setFailedBlocked then ReturnedBlocked else Raised)
    else if c.ensureRepository.Throws? || c.updateImage.Throws? || c.updateImage.value.status.Error? then ([], Raised)
    else Govern(g, c, c.updateImage.value)
  }

  /** What the governance task answers: without a runtime, a task that did not succeed. */
  function GovernanceAnswer(g: Config, c: Calls): Result<Governance>
  {
    if g.runtime then c.governance else Returns(Governance(false, None))
  }

  function Govern(g: Config, c: Calls, yaml: YamlUpdate): (seq<Effect>, TryEnd)
  {
    if g.governance && GovernanceAnswer(g, c).Throws? then ([], Raised)
    else if g.governance && Rejects(GovernanceAnswer(g, c).value) then ([DiscardCalled(yaml.changedFiles)], Raised)
    else Commit(g, c, yaml)
  }

  predicate Rejects(r: Governance)
  {
    !r.succeeded || BlocksChange(r.data)
  }

  function Commit(g: Config, c: Calls, yaml: YamlUpdate): (seq<Effect>, TryEnd)
  {
    if yaml.status.Changed? then
      if c.commit != Returns(true) then ([CommitCalled(yaml.changedFiles)], Raised)
      else Prefix([CommitCalled(yaml.changedFiles)], Announce(g, c))
    else Announce(g, c)
  }

  function Prefix(effects: seq<Effect>, rest: (seq<Effect>, TryEnd)): (seq<Effect>, TryEnd)
  {
    (effects + rest.0, rest.1)
  }

  function Announce(g: Config, c: Calls): (seq<Effect>, TryEnd)
  {
    if !c.publish(YamlUpdated) then ([], Raised) else Prefix([Published(YamlUpdated)], Sync(g, c))
  }

  function Sync(g: Config, c: Calls): (seq<Effect>, TryEnd)
  {
    if !g.sync then Complete(c)
    else if c.sync.Throws? || !c.publish(SyncRequested) then ([SyncCalled], Raised)
    else if c.sync.value.SyncFailed? then ([SyncCalled, Published(SyncRequested)], Raised)
    else Prefix([SyncCalled, Published(SyncRequested)], Complete(c))
  }

  function Complete(c: Calls): (seq<Effect>, TryEnd)
  {
    if !c.publish(BuildCompleted) then ([], Raised)
    else if !c.setProcessed then ([Published(BuildCompleted)], Raised)
    else ([Published(BuildCompleted), MarkedProcessed], Done)
  }

  /** Publishing the failure and marking the key. */
  function Fail(c: Calls): (seq<Effect>, Ending)
  {
    if !c.publish(DeploymentFailed) then ([], RunThrew)
    else ([Published(DeploymentFailed)], if c.setFailed then RunFailed else RunThrew)
  }

  /** A run that is not skipped, after its key has been set to `processing`. */
  function Run(g: Config, buildSucceeded: bool, c: Calls): (seq<Effect>, Ending)
  {
    if !buildSucceeded then
      if g.buildFix && g.runtime && c.buildFix.Throws? then ([], RunThrew) else Fail(c)
    else
      var (effects, end) := Deploy(g, c);
      match end
      case Done => (effects, RunSucceeded)
      case ReturnedBlocked => (effects, RunFailed)
      case Raised => (effects + Fail(c).0, Fail(c).1)
  }

  // ---- what a run guarantees ---------------------------------------------------------------------------------

  const COMPLETED := Published(BuildCompleted)
  const FAILED := Published(DeploymentFailed)

  /** The announcements of how the run ended, in order. */
  function Endings(effects: seq<Effect>): seq<Effect>
  {
    if effects == [] then []
    else (if effects[0] == COMPLETED || effects[0] == FAILED then [effects[0]] else []) + Endings(effects[1..])
  }

  lemma {:induction false} EndingsConcat(a: seq<Effect>, b: seq<Effect>)
    ensures Endings(a + b) == Endings(a) + Endings(b)
  {
    if a == [] {
      assert a + b == b;
    } else {
      assert (a + b)[1..] == a[1..] + b;
      EndingsConcat(a[1..], b);
      var first := if a[0] == COMPLETED || a[0] == FAILED then [a[0]] else [];
      assert first + Endings(a[1..]) + Endings(b) == first + (Endings(a[1..]) + Endings(b));
    }
  }

  /** A key write that follows an announcement is lost. Both such writes are inside the try block. */
  predicate KeyWriteLost(g: Config, c: Calls)
  {
    if PreflightBlocks(g, c) then !c.setFailedBlocked else !c.setProcessed
  }

  predicate PreflightBlocks(g: Config, c: Calls)
  {
    g.preflight && c.preflight.Returns? && c.preflight.value.Blocked?
  }

  /** Structured data that approves, with a risk level that is a string other than high and critical. */
  predicate ApprovedAtLowRisk(data: Option<Structured>)
  {
    data.Some? && data.value.approved && data.value.riskLevel.Some? &&
      data.value.riskLevel.value !in {"high", "critical"}
  }

  /** Preflight and update succeed, and governance, if it is on, approves. */
  predicate UpdateCleared(g: Config, c: Calls)
  {
    && (g.preflight ==> c.preflight.Returns? && !c.preflight.value.Blocked?)
    && c.ensureRepository.Returns? && c.updateImage.Returns? && !c.updateImage.value.status.Error?
    && (g.governance ==>
          g.runtime && c.governance.Returns? && c.governance.value.succeeded &&
            ApprovedAtLowRisk(c.governance.value.data))
  }

  /** All that has to succeed for completion to be announced. */
  predicate Completes(g: Config, c: Calls)
  {
    && UpdateCleared(g, c)
    && (c.updateImage.value.status.Changed? ==> c.commit == Returns(true))
    && c.publish(YamlUpdated)
    && (g.sync ==> c.sync.Returns? && c.publish(SyncRequested) && !c.sync.value.SyncFailed?)
    && c.publish(BuildCompleted)
  }

  /** The try block announces how the run ends: a blocked preflight, or completion. */
  predicate AnnouncedInTry(g: Config, c: Calls)
  {
    if PreflightBlocks(g, c) then c.publishBlocked else Completes(g, c)
  }

  /** What the try block announces: completion as its last effect but the key write, a blocked preflight, or
      nothing; and without getting to return only when the key write after it is lost. */
  predicate TryEndings(r: (seq<Effect>, TryEnd), lost: bool)
  {
    match r.1
    case Done => |r.0| >= 2 && r.0[|r.0| - 1] == MarkedProcessed && r.0[|r.0| - 2] == COMPLETED &&
      Endings(r.0) == [COMPLETED]
    case ReturnedBlocked => r.0 == [FAILED] == Endings(r.0)
    case Raised => Endings(r.0) == [] || ((Endings(r.0) == [COMPLETED] || Endings(r.0) == [FAILED]) && lost)
  }

  lemma PrefixEndings(e: Effect, r: (seq<Effect>, TryEnd), c: Calls)
    requires TryEndings(r, !c.setProcessed) && !r.1.ReturnedBlocked? && e != COMPLETED && e != FAILED
    ensures TryEndings(([e] + r.0, r.1), !c.setProcessed)
  {
    assert ([e] + r.0)[1..] == r.0;
  }

  lemma CompleteEndings(c: Calls)
    ensures TryEndings(Complete(c), !c.setProcessed) && !Complete(c).1.ReturnedBlocked?
  {
    assert Endings([MarkedProcessed]) == [];
    assert [COMPLETED, MarkedProcessed][1..] == [MarkedProcessed];
  }

  lemma OtherEndings(e: Effect)
    requires e != COMPLETED && e != FAILED
    ensures Endings([e]) == []
  {
    assert [e][1..] == [];
  }

  lemma SyncEndings(g: Config, c: Calls)
    ensures TryEndings(Sync(g, c), !c.setProcessed) && !Sync(g, c).1.ReturnedBlocked?
  {
    var r, asked := Complete(c), Published(SyncRequested);
    CompleteEndings(c);
    if !g.sync {
    } else if c.sync.Throws? || !c.publish(SyncRequested) {
      OtherEndings(SyncCalled);
    } else if c.sync.value.SyncFailed? {
      EndingsConcat([SyncCalled], [asked]);
      OtherEndings(SyncCalled);
      OtherEndings(asked);
      assert [SyncCalled] + [asked] == [SyncCalled, asked];
    } else {
      PrefixEndings(asked, r, c);
      PrefixEndings(SyncCalled, ([asked] + r.0, r.1), c);
      assert [SyncCalled, asked] + r.0 == [SyncCalled] + ([asked] + r.0);
    }
  }

  lemma CommitEndings(g: Config, c: Calls, yaml: YamlUpdate)
    ensures TryEndings(Commit(g, c, yaml), !c.setProcessed) && !Commit(g, c, yaml).1.ReturnedBlocked?
  {
    SyncEndings(g, c);
    PrefixEndings(Published(YamlUpdated), Sync(g, c), c);
    PrefixEndings(CommitCalled(yaml.changedFiles), Announce(g, c), c);
  }

  lemma DeployEndings(g: Config, c: Calls)
    ensures TryEndings(Deploy(g, c), KeyWriteLost(g, c))
  {
    assert Endings([FAILED]) == [FAILED];
    if c.updateImage.Returns? { CommitEndings(g, c, c.updateImage.value); }
  }

  lemma AnnouncedExactly(g: Config, c: Calls)
    ensures Endings(Deploy(g, c).0) != [] <==> AnnouncedInTry(g, c)
    ensures COMPLETED in Deploy(g, c).0 <==> Completes(g, c)
  {
    DeployEndings(g, c);
    EndingsMember(Deploy(g, c).0);
    assert Endings([FAILED]) == [FAILED];
    AnnouncesCompletion(g, c);
  }

  lemma AnnouncesCompletion(g: Config, c: Calls)
    ensures COMPLETED in Deploy(g, c).0 <==> Completes(g, c)
    ensures !PreflightBlocks(g, c) ==> FAILED !in Deploy(g, c).0
    ensures PreflightBlocks(g, c) ==> Deploy(g, c).0 == if c.publishBlocked then [FAILED] else []
  {
  }

  /** The build fix that is asked for a failed build throws. */
  predicate FixThrows(g: Config, c: Calls)
  {
    g.buildFix && g.runtime && c.buildFix.Throws?
  }

  /** The key is marked `failed` after the failure has been announced. */
  predicate MarksFailed(c: Calls)
  {
    c.publish(DeploymentFailed) && c.setFailed
  }

  /** The calls that take a run to `succeeded`. */
  predicate Succeeds(g: Config, buildSucceeded: bool, c: Calls)
  {
    buildSucceeded && Completes(g, c) && c.setProcessed
  }

  /** The preflight blocks, and this gets announced and recorded. */
  predicate EndsBlocked(g: Config, c: Calls)
  {
    PreflightBlocks(g, c) && c.publishBlocked && c.setFailedBlocked
  }

  /** The calls after which a run announces and records a failure at its end: the build had failed, and its fix does not
      throw, or it had not, and something was raised. */
  predicate ReachesFailure(g: Config, buildSucceeded: bool, c: Calls)
  {
    if buildSucceeded then !Succeeds(g, true, c) && !EndsBlocked(g, c) else !FixThrows(g, c)
  }

  /** The calls that take a run to `failed`. */
  predicate Fails(g: Config, buildSucceeded: bool, c: Calls)
  {
    (buildSucceeded && EndsBlocked(g, c)) || (ReachesFailure(g, buildSucceeded, c) && MarksFailed(c))
  }

  lemma TryEndsExactly(g: Config, c: Calls)
    ensures Deploy(g, c).1.Done? <==> Completes(g, c) && c.setProcessed
    ensures Deploy(g, c).1.ReturnedBlocked? <==> EndsBlocked(g, c)
  {
  }

  /** From the calls alone: when a run succeeds, when it fails, and when it throws; and everything it announces about
      its end, which is what the try block announces and then a failure if it gets there. */
  lemma RunEndsExactly(g: Config, buildSucceeded: bool, c: Calls)
    ensures var (effects, ending) := Run(g, buildSucceeded, c);
      && (ending == RunSucceeded <==> Succeeds(g, buildSucceeded, c))
      && (ending == RunFailed <==> Fails(g, buildSucceeded, c))
      && (ending == RunThrew <==> !Succeeds(g, buildSucceeded, c) && !Fails(g, buildSucceeded, c))
      && Endings(effects) ==
          (if buildSucceeded then AnnouncementOfTry(g, c) else []) +
          (if ReachesFailure(g, buildSucceeded, c) && c.publish(DeploymentFailed) then [FAILED] else [])
  {
    TryEndsExactly(g, c);
    DeployAnnounces(g, c);
    assert Endings([FAILED]) == [FAILED];
    EndingsConcat(Deploy(g, c).0, Fail(c).0);
  }

  /** Completion, or a blocked preflight, or nothing. */
  function AnnouncementOfTry(g: Config, c: Calls): seq<Effect>
  {
    if PreflightBlocks(g, c) && c.publishBlocked then [FAILED] else if Completes(g, c) then [COMPLETED] else []
  }

  lemma DeployAnnounces(g: Config, c: Calls)
    ensures Endings(Deploy(g, c).0) == AnnouncementOfTry(g, c)
  {
    DeployEndings(g, c);
    EndingsMember(Deploy(g, c).0);
    AnnouncesCompletion(g, c);
    AnnouncedExactly(g, c);
    assert Endings([FAILED]) == [FAILED];
  }

  /** A failure is announced exactly when the preflight blocks and can say so, or a run gets to announce one at its end
      and can. */
  lemma FailureAnnouncedExactly(g: Config, buildSucceeded: bool, c: Calls)
    ensures FAILED in Run(g, buildSucceeded, c).0 <==>
      || (buildSucceeded && PreflightBlocks(g, c) && c.publishBlocked)
      || (ReachesFailure(g, buildSucceeded, c) && c.publish(DeploymentFailed))
  {
    RunEndsExactly(g, buildSucceeded, c);
    EndingsMember(Run(g, buildSucceeded, c).0);
  }

  /** A run that returns announces its end last, and exactly once unless the try block has announced it and then
      lost the key write, when the catch block announces a failure on top. */
  lemma EndAnnouncedOnce(g: Config, buildSucceeded: bool, c: Calls)
    ensures var (effects, ending) := Run(g, buildSucceeded, c);
      ending != RunThrew ==>
        && (|Endings(effects)| == 1 <==> !(buildSucceeded && AnnouncedInTry(g, c) && KeyWriteLost(g, c)))
        && (ending == RunSucceeded <==> Endings(effects) == [COMPLETED])
        && (if ending == RunSucceeded then
              |effects| >= 2 && effects[|effects| - 1] == MarkedProcessed && effects[|effects| - 2] == COMPLETED
            else effects != [] && effects[|effects| - 1] == FAILED)
  {
    DeployEndings(g, c);
    DoneWrites(g, c);
    AnnouncedExactly(g, c);
    var (effects, end) := Deploy(g, c);
    assert Endings([FAILED]) == [FAILED];
    if buildSucceeded && end.Raised? && c.publish(DeploymentFailed) {
      EndingsConcat(effects, [FAILED]);
      assert (Endings(effects) + [FAILED])[|Endings(effects)|] == FAILED;
    }
  }

  lemma DoneWrites(g: Config, c: Calls)
    ensures !Deploy(g, c).1.Raised? ==> !KeyWriteLost(g, c)
  {
  }

  lemma {:induction false} EndingsMember(effects: seq<Effect>)
    ensures COMPLETED in effects <==> COMPLETED in Endings(effects)
    ensures FAILED in effects <==> FAILED in Endings(effects)
  {
    if effects == [] {
    } else {
      EndingsMember(effects[1..]);
    }
  }

  /** The conditions under which the image change is pushed. */
  predicate Cleared(g: Config, buildSucceeded: bool, c: Calls)
  {
    buildSucceeded && UpdateCleared(g, c) && c.updateImage.value.status.Changed?
  }

  /** The conditions under which governance is asked and answers with a rejection. */
  predicate UpdateRejected(g: Config, c: Calls)
  {
    && (g.preflight ==> c.preflight.Returns? && !c.preflight.value.Blocked?)
    && c.ensureRepository.Returns? && c.updateImage.Returns? && !c.updateImage.value.status.Error?
    && g.governance && (g.runtime ==> c.governance.Returns? && Rejects(c.governance.value))
  }

  predicate Rejected(g: Config, buildSucceeded: bool, c: Calls)
  {
    buildSucceeded && UpdateRejected(g, c)
  }

  /** How far the try block gets. */
  lemma DeployStages(g: Config, c: Calls)
    ensures UpdateCleared(g, c) ==> Deploy(g, c) == Commit(g, c, c.updateImage.value)
    ensures UpdateRejected(g, c) ==> Deploy(g, c) == ([DiscardCalled(c.updateImage.value.changedFiles)], Raised)
    ensures !UpdateCleared(g, c) && !UpdateRejected(g, c) ==> Deploy(g, c).0 == [] || Deploy(g, c).0 == [FAILED]
    ensures !UpdateCleared(g, c) ==> !Deploy(g, c).1.Done?
  {
  }

  /** Announcements of progress and completion, and the sync. */
  predicate Late(e: Effect)
  {
    e.SyncCalled? || e.MarkedProcessed? || (e.Published? && e != FAILED)
  }

  lemma LateEffects(g: Config, c: Calls)
    ensures forall e :: e in Sync(g, c).0 ==> Late(e)
    ensures forall e :: e in Announce(g, c).0 ==> Late(e)
  {
    assert forall e :: e in Complete(c).0 ==> Late(e);
  }

  lemma CommitEffects(g: Config, c: Calls, yaml: YamlUpdate)
    ensures forall e :: e in Commit(g, c, yaml).0 ==> Late(e) || e == CommitCalled(yaml.changedFiles)
    ensures CommitCalled(yaml.changedFiles) in Commit(g, c, yaml).0 <==> yaml.status.Changed?
  {
    LateEffects(g, c);
  }

  lemma RunEffects(g: Config, buildSucceeded: bool, c: Calls, e: Effect)
    requires e != FAILED
    ensures e in Run(g, buildSucceeded, c).0 <==> buildSucceeded && e in Deploy(g, c).0
  {
  }

  /** A commit is attempted exactly when preflight, update and governance clear it, and with the changed files. */
  lemma CommitOnlyWhenCleared(g: Config, buildSucceeded: bool, c: Calls, files: seq<string>)
    ensures CommitCalled(files) in Run(g, buildSucceeded, c).0 <==>
      Cleared(g, buildSucceeded, c) && files == c.updateImage.value.changedFiles
  {
    RunEffects(g, buildSucceeded, c, CommitCalled(files));
    DeployStages(g, c);
    if UpdateCleared(g, c) { CommitEffects(g, c, c.updateImage.value); }
  }

  /** Changes are discarded exactly when governance returned a rejection (not when it threw, and not when a
      commit failed); then exactly the changed files are, and nothing of the change gets out. */
  lemma DiscardOnlyOnRejection(g: Config, buildSucceeded: bool, c: Calls, files: seq<string>)
    ensures DiscardCalled(files) in Run(g, buildSucceeded, c).0 <==>
      Rejected(g, buildSucceeded, c) && files == c.updateImage.value.changedFiles
    ensures Rejected(g, buildSucceeded, c) ==>
      forall e :: e in Run(g, buildSucceeded, c).0 ==>
        e == DiscardCalled(c.updateImage.value.changedFiles) || e == Published(DeploymentFailed)
  {
    RunEffects(g, buildSucceeded, c, DiscardCalled(files));
    DeployStages(g, c);
    if UpdateCleared(g, c) { CommitEffects(g, c, c.updateImage.value); }
    if Rejected(g, buildSucceeded, c) {
      forall e | e in Run(g, buildSucceeded, c).0 && e != FAILED
        ensures e == DiscardCalled(c.updateImage.value.changedFiles)
      {
        RunEffects(g, buildSucceeded, c, e);
      }
    }
  }

  /** The order of the effects from the sync on, from the first announcement on, and of all; a failing call only ever
      cuts off the end. */
  function SyncOrder(g: Config): seq<Effect>
  {
    (if g.sync then [SyncCalled, Published(SyncRequested)] else []) + [COMPLETED, MarkedProcessed]
  }

  function FullOrder(g: Config, yaml: YamlUpdate): seq<Effect>
  {
    (if yaml.status.Changed? then [CommitCalled(yaml.changedFiles)] else []) +
    ([Published(YamlUpdated)] + SyncOrder(g))
  }

  /** The effects are a prefix of the given ones, and all of them when the try block gets to its end. */
  predicate CutOff(r: (seq<Effect>, TryEnd), full: seq<Effect>)
  {
    r.0 <= full && (r.1.Done? ==> r.0 == full)
  }

  lemma PrefixCutOff(e: Effect, r: (seq<Effect>, TryEnd), full: seq<Effect>)
    requires CutOff(r, full)
    ensures CutOff(Prefix([e], r), [e] + full)
  {
  }

  lemma SyncInOrder(g: Config, c: Calls)
    ensures CutOff(Sync(g, c), SyncOrder(g))
  {
    assert CutOff(Complete(c), [COMPLETED, MarkedProcessed]);
  }

  lemma CommitInOrder(g: Config, c: Calls, yaml: YamlUpdate)
    ensures CutOff(Commit(g, c, yaml), FullOrder(g, yaml))
  {
    SyncInOrder(g, c);
    PrefixCutOff(Published(YamlUpdated), Sync(g, c), SyncOrder(g));
    var announced := [Published(YamlUpdated)] + SyncOrder(g);
    assert CutOff(Announce(g, c), announced);
    PrefixCutOff(CommitCalled(yaml.changedFiles), Announce(g, c), announced);
    assert [] + announced == announced;
  }

  lemma AnnouncedAfterCommit(g: Config, c: Calls, yaml: YamlUpdate)
    ensures Published(YamlUpdated) in Commit(g, c, yaml).0 ==> !yaml.status.Changed? || c.commit == Returns(true)
  {
  }

  /** The try block's effects are a prefix of that order, or a discard or a blocked preflight's announcement
      alone; and announcing the YAML change takes a commit that succeeded, or a file that was up to date. */
  lemma EffectsInOrder(g: Config, c: Calls)
    requires c.updateImage.Returns?
    ensures var effects := Deploy(g, c).0;
      && (effects <= FullOrder(g, c.updateImage.value) || effects == [DiscardCalled(c.updateImage.value.changedFiles)]
            || effects == [FAILED])
      && (Deploy(g, c).1.Done? ==> effects == FullOrder(g, c.updateImage.value))
      && (Published(YamlUpdated) in effects ==> c.updateImage.value.status.Unchanged? || c.commit == Returns(true))
  {
    DeployStages(g, c);
    CommitInOrder(g, c, c.updateImage.value);
    AnnouncedAfterCommit(g, c, c.updateImage.value);
  }

  // ---- the idempotency key over many runs ----------------------------------------------------------------------

  datatype Build = Build(id: string, environment: string, succeeded: bool)

  /** When the calls on the store and the announcement of completion happen, in milliseconds. */
  datatype Times = Times(get: int, begin: int, completed: int, end: int)
  datatype Job = Job(build: Build, config: Config, calls: Calls, times: Times)
  datatype Outcome = SkippedRun | Ended(ending: Ending)

  function PipelineKey(b: Build): string
  {
    "pipeline:" + b.id + [':'] + b.environment
  }

  /** Environments hold no colon (they are dev, test and prod), so different builds have different keys. */
  lemma PipelineKeyInjective(b: Build, b': Build)
    requires ':' !in b.environment && ':' !in b'.environment
    ensures PipelineKey(b) == PipelineKey(b') <==> b.id == b'.id && b.environment == b'.environment
  {
    Text.LastSeparatorUnique("pipeline:" + b.id, ':', b.environment, "pipeline:" + b'.id, b'.environment);
    assert ("pipeline:" + b.id)[9..] == b.id && ("pipeline:" + b'.id)[9..] == b'.id;
  }

  function AfterGet(values: map<string, Record>, key: string, now: int): map<string, Record>
  {
    if key in values && Expired(values[key], now) then values - {key} else values
  }

  /** One delivery of a Tekton event: the store afterwards, the effects, and how it went. */
  function OneRun(values: map<string, Record>, j: Job): (map<string, Record>, seq<Effect>, Outcome)
  {
    var key := PipelineKey(j.build);
    if !j.calls.get then (values, [], Ended(RunThrew))
    else
      var looked := AfterGet(values, key, j.times.get);
      var previous := Lookup(values, key, j.times.get);
      if previous == Some(Processed) || previous == Some(Processing) then (looked, [], SkippedRun)
      else if !j.calls.begin then (looked, [], Ended(RunThrew))
      else
        var begun := looked[key := Stored(Processing, Some(3600), j.times.begin)];
        var (effects, ending) := Run(j.config, j.build.succeeded, j.calls);
        (match ending
         case RunSucceeded => begun[key := Stored(Processed, Some(86400), j.times.end)]
         case RunFailed => begun[key := Stored(Failed, Some(3600), j.times.end)]
         case RunThrew => begun,
         effects, Ended(ending))
  }

  datatype Completion = Completion(key: string, time: int)
  datatype History = History(values: map<string, Record>, completions: seq<Completion>)

  function Announced(effects: seq<Effect>, j: Job): seq<Completion>
  {
    if COMPLETED in effects then [Completion(PipelineKey(j.build), j.times.completed)] else []
  }

  /** Runs one after the other, with the announced completions. */
  function RunAll(jobs: seq<Job>): History
  {
    if jobs == [] then History(map[], [])
    else
      var h, j := RunAll(jobs[..|jobs| - 1]), jobs[|jobs| - 1];
      var (values, effects, _) := OneRun(h.values, j);
      History(values, h.completions + Announced(effects, j))
  }

  /** Runs do not overlap, and the clock does not go back. */
  ghost predicate Sequential(jobs: seq<Job>)
  {
    && (forall i :: 0 <= i < |jobs| ==>
          0 < jobs[i].times.get <= jobs[i].times.begin <= jobs[i].times.completed <= jobs[i].times.end)
    && (forall i, k :: 0 <= i < k < |jobs| ==> jobs[i].times.end <= jobs[k].times.get)
  }

  const DAY := 86400 * 1000

  /** Until a day after a completion its key is `processed`, and says so for that long. */
  ghost predicate Guarded(values: map<string, Record>, c: Completion, now: int)
  {
    now >= c.time + DAY ||
    (c.key in values && values[c.key].state == Processed && values[c.key].expiresAt.Some? &&
     values[c.key].expiresAt.value >= c.time + DAY)
  }

  ghost predicate Spaced(completions: seq<Completion>)
  {
    forall i, k :: 0 <= i < k < |completions| && completions[i].key == completions[k].key ==>
      completions[i].time + DAY <= completions[k].time
  }

  ghost predicate HistoryInv(h: History, now: int)
  {
    Spaced(h.completions) &&
    forall i :: 0 <= i < |h.completions| ==> 0 < h.completions[i].time && Guarded(h.values, h.completions[i], now)
  }

  /** Within a day of a completion, a run under its key is skipped and leaves the key as it is. */
  lemma GuardedSkips(values: map<string, Record>, j: Job, c: Completion)
    requires Guarded(values, c, j.times.get) && c.time > 0 && j.times.get < c.time + DAY &&
      c.key == PipelineKey(j.build)
    ensures var (values', effects, outcome) := OneRun(values, j); values' == values && effects == []
  {
  }

  lemma OneRunGuards(values: map<string, Record>, j: Job, c: Completion)
    requires Guarded(values, c, j.times.get) && c.time > 0
    requires j.times.get <= j.times.end
    ensures Guarded(OneRun(values, j).0, c, j.times.end)
  {
    if j.times.get < c.time + DAY && c.key == PipelineKey(j.build) { GuardedSkips(values, j, c); }
  }

  /** If the run announces completion, the key write after it succeeds. */
  predicate KeyWritten(j: Job)
  {
    j.build.succeeded && Completes(j.config, j.calls) ==> j.calls.setProcessed
  }

  /** A run that announces completion and gets its key write through guards that completion. */
  lemma CompletionGuarded(values: map<string, Record>, j: Job)
    requires COMPLETED in OneRun(values, j).1 && KeyWritten(j) && 0 < j.times.completed <= j.times.end
    ensures Guarded(OneRun(values, j).0, Completion(PipelineKey(j.build), j.times.completed), j.times.end)
  {
    CompletesExactly(j);
  }

  lemma OneRunInv(h: History, j: Job)
    requires HistoryInv(h, j.times.get) && KeyWritten(j)
    requires 0 < j.times.get <= j.times.begin <= j.times.completed <= j.times.end
    ensures var (values, effects, _) := OneRun(h.values, j);
      HistoryInv(History(values, h.completions + Announced(effects, j)), j.times.end)
  {
    var (values, effects, _) := OneRun(h.values, j);
    forall i | 0 <= i < |h.completions| ensures Guarded(values, h.completions[i], j.times.end) {
      OneRunGuards(h.values, j, h.completions[i]);
    }
    if COMPLETED in effects {
      CompletionGuarded(h.values, j);
      forall i | 0 <= i < |h.completions| && h.completions[i].key == PipelineKey(j.build)
        ensures h.completions[i].time + DAY <= j.times.completed
      {
        if j.times.get < h.completions[i].time + DAY { GuardedSkips(h.values, j, h.completions[i]); }
      }
    }
  }

  lemma LaterInv(h: History, now: int, later: int)
    requires HistoryInv(h, now) && now <= later
    ensures HistoryInv(h, later)
  {
  }

  lemma {:induction false} RunAllInv(jobs: seq<Job>)
    requires Sequential(jobs) && forall i :: 0 <= i < |jobs| ==> KeyWritten(jobs[i])
    ensures HistoryInv(RunAll(jobs), if jobs == [] then 0 else jobs[|jobs| - 1].times.end)
  {
    if jobs == [] {
    } else {
      var n := |jobs| - 1;
      RunAllInv(jobs[..n]);
      LaterInv(RunAll(jobs[..n]), if n == 0 then 0 else jobs[n - 1].times.end, jobs[n].times.get);
      OneRunInv(RunAll(jobs[..n]), jobs[n]);
    }
  }

  /** Over any sequence of runs, two announced completions of the same build and environment are at least a
      day apart, provided the key writes after completion succeed; any other call may fail. */
  lemma CompletionsADayApart(jobs: seq<Job>)
    requires Sequential(jobs) && forall i :: 0 <= i < |jobs| ==> KeyWritten(jobs[i])
    ensures Spaced(RunAll(jobs).completions)
  {
    RunAllInv(jobs);
  }

  const HOUR := 3600 * 1000

  lemma CompletesExactly(j: Job)
    ensures COMPLETED in Run(j.config, j.build.succeeded, j.calls).0 <==>
      j.build.succeeded && Completes(j.config, j.calls)
    ensures COMPLETED in Run(j.config, j.build.succeeded, j.calls).0 ==>
      Run(j.config, j.build.succeeded, j.calls).1 ==
        if j.calls.setProcessed then RunSucceeded else if MarksFailed(j.calls) then RunFailed else RunThrew
  {
    AnnouncesCompletion(j.config, j.calls);
  }

  /** A run gets past its key and its store calls, and everything that completion takes succeeds. */
  predicate WouldComplete(j: Job)
  {
    j.calls.get && j.calls.begin && j.build.succeeded && Completes(j.config, j.calls)
  }

  /** When a build completes a second time: after a day; or, if the key write after the first completion was lost,
      at once when the key got marked `failed`, and after the hour of `processing` when that was lost too. So two
      completions within a day take a lost key write, and then the mark or the hour. */
  lemma LostKeyWriteCompletesTwice(values: map<string, Record>, j: Job, again: Job)
    requires WouldComplete(j) && WouldComplete(again) && PipelineKey(again.build) == PipelineKey(j.build)
    requires Sequential([j, again])
    requires var state := Lookup(values, PipelineKey(j.build), j.times.get); state.None? || state == Some(Failed)
    ensures COMPLETED in OneRun(values, j).1
    ensures COMPLETED in OneRun(OneRun(values, j).0, again).1 <==>
      if j.calls.setProcessed then again.times.get >= j.times.end + DAY
      else MarksFailed(j.calls) || again.times.get >= j.times.begin + HOUR
    ensures COMPLETED in OneRun(OneRun(values, j).0, again).1 && again.times.completed < j.times.completed + DAY <==>
      && !j.calls.setProcessed && (MarksFailed(j.calls) || again.times.get >= j.times.begin + HOUR)
      && again.times.completed < j.times.completed + DAY
  {
    CompletesExactly(j);
    CompletesExactly(again);
    TimesInOrder(j, again);
  }

  lemma TimesInOrder(j: Job, again: Job)
    requires Sequential([j, again])
    ensures 0 < j.times.begin <= j.times.completed <= j.times.end <= again.times.get <= again.times.completed
  {
    assert [j, again][0] == j && [j, again][1] == again;
  }

  /** The run is not skipped, and gets its key set to `processing`. */
  predicate Starts(values: map<string, Record>, j: Job)
  {
    var state := Lookup(values, PipelineKey(j.build), j.times.get);
    j.calls.get && j.calls.begin && (state.None? || state == Some(Failed))
  }

  /** Whether the next run of the same build and environment is skipped follows from the calls of the run before: for a
      day if that succeeded, never if it failed, and for an hour from its beginning if it threw. */
  lemma SkippedNextExactly(values: map<string, Record>, j: Job, again: Job)
    requires Starts(values, j) && again.calls.get && PipelineKey(again.build) == PipelineKey(j.build)
    requires Sequential([j, again])
    ensures OneRun(OneRun(values, j).0, again).2 == SkippedRun <==>
      if Succeeds(j.config, j.build.succeeded, j.calls) then again.times.get < j.times.end + DAY
      else !Fails(j.config, j.build.succeeded, j.calls) && again.times.get < j.times.begin + HOUR
  {
    RunEndsExactly(j.config, j.build.succeeded, j.calls);
    TimesInOrder(j, again);
  }

  /** A run is skipped only because an earlier run was for the same build and environment. */
  lemma {:induction false} SkippedOnlyBySameBuild(jobs: seq<Job>, j: Job)
    requires ':' !in j.build.environment && forall i :: 0 <= i < |jobs| ==> ':' !in jobs[i].build.environment
    requires OneRun(RunAll(jobs).values, j).2 == SkippedRun
    ensures exists i ::
      0 <= i < |jobs| && jobs[i].build.id == j.build.id && jobs[i].build.environment == j.build.environment
  {
    var i := KeysFromRuns(jobs, PipelineKey(j.build));
    PipelineKeyInjective(jobs[i].build, j.build);
  }

  lemma {:induction false} KeysFromRuns(jobs: seq<Job>, key: string) returns (i: nat)
    requires key in RunAll(jobs).values
    ensures i < |jobs| && PipelineKey(jobs[i].build) == key
  {
    i := |jobs| - 1;
    if PipelineKey(jobs[i].build) != key {
      i := KeysFromRuns(jobs[..i], key);
    }
  }

  // ---- the implementation --------------------------------------------------------------------------------------

  class PipelineAgent {
    const config: Config
    const idempotencyStore: MemoryIdempotencyStore
    ghost var log: seq<Effect>

    constructor (config: Config, store: MemoryIdempotencyStore)
      ensures this.config == config && idempotencyStore == store && log == []
    {
      this.config, idempotencyStore, log := config, store, [];
    }

    /** `publishDerivedEvent`; false is a throw. */
    method Publish(event: EventType, c: Calls) returns (ok: bool)
      modifies this
      ensures ok == c.publish(event) && log == old(log) + if ok then [Published(event)] else []
    {
      ok := c.publish(event);
      if ok { log := log + [Published(event)]; }
    }

    /** The end of the try block. */
    method CompleteRun(c: Calls, key: string, now: int) returns (end: TryEnd)
      modifies this, idempotencyStore
      ensures log == old(log) + Complete(c).0 && end == Complete(c).1
      ensures idempotencyStore.values ==
        if end.Done? then old(idempotencyStore.values)[key := Stored(Processed, Some(86400), now)]
        else old(idempotencyStore.values)
    {
      end := Raised;
      var ok := Publish(BuildCompleted, c);
      if !ok || !c.setProcessed { return; }
      idempotencyStore.Set(key, Processed, Some(86400), now);
      log := log + [MarkedProcessed];
      end := Done;
    }

    method AnnounceAndSync(c: Calls, key: string, now: int) returns (end: TryEnd)
      modifies this, idempotencyStore
      ensures log == old(log) + Announce(config, c).0 && end == Announce(config, c).1
      ensures idempotencyStore.values ==
        if end.Done? then old(idempotencyStore.values)[key := Stored(Processed, Some(86400), now)]
        else old(idempotencyStore.values)
    {
      end := Raised;
      var ok := Publish(YamlUpdated, c);
      if !ok { return; }
      if config.sync {
        log := log + [SyncCalled];
        if c.sync.Throws? { return; }
        ok := Publish(SyncRequested, c);
        if !ok || c.sync.value.SyncFailed? { return; }
      }
      end := CompleteRun(c, key, now);
    }

    /** The try block after the update has changed or confirmed the file. */
    method CommitAndAnnounce(c: Calls, yaml: YamlUpdate, key: string, now: int) returns (end: TryEnd)
      modifies this, idempotencyStore
      ensures log == old(log) + Commit(config, c, yaml).0 && end == Commit(config, c, yaml).1
      ensures idempotencyStore.values ==
        if end.Done? then old(idempotencyStore.values)[key := Stored(Processed, Some(86400), now)]
        else old(idempotencyStore.values)
    {
      if yaml.status.Changed? {
        log := log + [CommitCalled(yaml.changedFiles)];
        if c.commit != Returns(true) { return Raised; }
      }
      end := AnnounceAndSync(c, key, now);
    }

    /** The try block. */
    method DeployImage(c: Calls, key: string, now: int) returns (end: TryEnd)
      modifies this, idempotencyStore
      ensures log == old(log) + Deploy(config, c).0 && end == Deploy(config, c).1
      ensures idempotencyStore.values ==
        match end
        case Done => old(idempotencyStore.values)[key := Stored(Processed, Some(86400), now)]
        case ReturnedBlocked => old(idempotencyStore.values)[key := Stored(Failed, Some(3600), now)]
        case Raised => old(idempotencyStore.values)
    {
      end := Raised;
      if config.preflight {
        if c.preflight.Throws? { return; }
        if c.preflight.value.Blocked? {
          if c.publishBlocked {
            log := log + [Published(DeploymentFailed)];
            if c.setFailedBlocked {
              idempotencyStore.Set(key, Failed, Some(3600), now);
              end := ReturnedBlocked;
            }
          }
          return;
        }
      }
      if c.ensureRepository.Throws? || c.updateImage.Throws? { return; }
      var yaml := c.updateImage.value;
      if yaml.status.Error? { return; }
      if config.governance {
        var answer := GovernanceAnswer(config, c);
        if answer.Throws? { return; }
        if !answer.value.succeeded || BlocksChange(answer.value.data) {
          log := log + [DiscardCalled(yaml.changedFiles)];
          return;
        }
      }
      end := CommitAndAnnounce(c, yaml, key, now);
    }

    /** Publishing the failure, marking the key. */
    method FailRun(c: Calls, key: string, now: int) returns (ending: Ending)
      modifies this, idempotencyStore
      ensures log == old(log) + Fail(c).0 && ending == Fail(c).1
      ensures idempotencyStore.values ==
        if ending.RunFailed? then old(idempotencyStore.values)[key := Stored(Failed, Some(3600), now)]
        else old(idempotencyStore.values)
    {
      ending := RunThrew;
      var ok := Publish(DeploymentFailed, c);
      if !ok || !c.setFailed { return; }
      idempotencyStore.Set(key, Failed, Some(3600), now);
      ending := RunFailed;
    }

    /** `handleTektonPipelineRunCompleted`. */
    method HandleTektonPipelineRunCompleted(build: Build, c: Calls, times: Times) returns (outcome: Outcome)
      modifies this, idempotencyStore
      ensures var (values, effects, o) := OneRun(old(idempotencyStore.values), Job(build, config, c, times));
        idempotencyStore.values == values && log == old(log) + effects && outcome == o
    {
      var key := PipelineKey(build);
      outcome := Ended(RunThrew);
      if !c.get { return; }
      var previous := idempotencyStore.Get(key, times.get);
      if previous == Some(Processed) || previous == Some(Processing) { return SkippedRun; }
      if !c.begin { return; }
      idempotencyStore.Set(key, Processing, Some(3600), times.begin);
      var ending;
      if !build.succeeded {
        if config.buildFix && config.runtime && c.buildFix.Throws? { return; }
        ending := FailRun(c, key, times.end);
      } else {
        var end := DeployImage(c, key, times.end);
        match end
        case Done => ending := RunSucceeded;
        case ReturnedBlocked => ending := RunFailed;
        case Raised => ending := FailRun(c, key, times.end);
      }
      outcome := Ended(ending);
    }
  }
}
