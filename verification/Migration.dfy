/** The protocol profile migration from schema v1 to v2, and its rollback.

    Both run with daemon and Hermes stopped under two guards, so no other writer is modelled here. */
module Migration {
  import opened Tables
  import opened Disks

  /** The files involved.  `attempt` numbers the rollbacks; each uses names of its own. */
  datatype Place =
    | Config | Original | Fallback | Target
    | ConfigBackup | ProfileBackup | Receipt | AutoRolledBack | CommittedMarker | RebuildMarker
    | Proof(which: nat)          // 0: of the old profile, 1: of the new one, 2: the last one
    | ApplyQuarantine(which: nat)
    | RollbackQuarantine(attempt: nat, which: nat)
    | Prepared(attempt: nat) | PreRollback(attempt: nat) | InvalidFallback(attempt: nat) | RolledBackReceipt(attempt: nat)

  /** `sourceProfile` is where the source config finds its profile: usually `Original`; `Fallback` after an
      earlier rollback left the fallback in use. */
  datatype Plan = Plan(
    sourceProfile: Place, sourceConfig: Content, targetConfig: Content, fallbackConfig: Content,
    sourceText: Content, targetText: Content, receiptText: Content, marker: Content)

  predicate Sensible(plan: Plan) {
    && (plan.sourceProfile.Original? || plan.sourceProfile.Fallback?)
    && plan.targetConfig != plan.sourceConfig && plan.targetConfig != plan.fallbackConfig
    && (plan.fallbackConfig == plan.sourceConfig ==> plan.sourceProfile.Fallback?)
  }

  predicate NoProofs(files: Files<Place>) { forall i :: 0 <= i < 3 ==> At(files, Proof(i)).None? }

  /** The config's present text, the text it may change to, and what must be on disk as soon as it has. */
  datatype Commit = Commit(before: Content, text: Content, holds: map<Place, Content>)

  predicate Waiting(c: Commit, files: Files<Place>) { At(files, Config) == Some(c.before) }

  predicate Done(c: Commit, files: Files<Place>) { At(files, Config) == Some(c.text) }

  predicate Ready(c: Commit, files: Files<Place>) {
    NoProofs(files) && forall p :: p in c.holds ==> At(files, p) == Some(c.holds[p])
  }

  ghost predicate AllSafe(c: Commit, log: seq<Change<Place>>, start: nat) {
    forall i :: start <= i < |log| ==> Waiting(c, log[i].after) || (Done(c, log[i].after) && Ready(c, log[i].after))
  }

  /** Writes a file other than the config before the commit. */
  method PutBefore(disk: Disk<Place>, p: Place, content: Content, ghost c: Commit, ghost start: nat) returns (ok: bool)
    requires !p.Config? && Waiting(c, disk.files) && start <= |disk.log| && AllSafe(c, disk.log, start)
    modifies disk
    ensures start <= |disk.log| && AllSafe(c, disk.log, start) && Waiting(c, disk.files)
    ensures ok ==> At(disk.files, p) == Some(content)
    ensures disk.reliable ==> ok
    ensures forall q :: q != p ==> At(disk.files, q) == At(old(disk.files), q)
  {
    ok := disk.Put(p, Some(content));
    assert At(disk.files, Config) == At(old(disk.files), Config);
  }

  method MoveBefore(disk: Disk<Place>, p: Place, q: Place, ghost c: Commit, ghost start: nat) returns (ok: bool)
    requires p in disk.files && q !in disk.files && !p.Config? && !q.Config?
    requires Waiting(c, disk.files) && start <= |disk.log| && AllSafe(c, disk.log, start)
    modifies disk
    ensures start <= |disk.log| && AllSafe(c, disk.log, start) && Waiting(c, disk.files)
    ensures ok ==> At(disk.files, p).None? && At(disk.files, q) == At(old(disk.files), p)
    ensures disk.reliable ==> ok
    ensures forall r :: r != p && r != q ==> At(disk.files, r) == At(old(disk.files), r)
  {
    ok := disk.Move(p, q);
    assert At(disk.files, Config) == At(old(disk.files), Config);
  }

  /** Replaces the config once everything is ready. */
  method PutConfig(disk: Disk<Place>, content: Content, ghost c: Commit, ghost start: nat) returns (ok: bool)
    requires content == c.before || content == c.text
    requires Waiting(c, disk.files) || Done(c, disk.files)
    requires Config !in c.holds && Ready(c, disk.files) && start <= |disk.log| && AllSafe(c, disk.log, start)
    modifies disk
    ensures start <= |disk.log| && AllSafe(c, disk.log, start) && Ready(c, disk.files)
    ensures ok ==> At(disk.files, Config) == Some(content)
    ensures disk.reliable ==> ok
    ensures At(disk.files, Config) == Some(content) || At(disk.files, Config) == At(old(disk.files), Config)
    ensures forall q :: q != Config ==> At(disk.files, q) == At(old(disk.files), q)
  {
    ok := disk.Put(Config, Some(content));
  }

  /** Where the apply, or a rollback, moves the proofs. */
  function Quarantined(attempt: Option<nat>, i: nat): Place {
    if attempt.None? then ApplyQuarantine(i) else RollbackQuarantine(attempt.value, i)
  }

  predicate MovedPlace(attempt: Option<nat>, p: Place) {
    p.Proof? || (if attempt.None? then p.ApplyQuarantine? else p.RollbackQuarantine?)
  }

  predicate ProofPlace(p: Place) { p.Proof? || p.ApplyQuarantine? || p.RollbackQuarantine? }

  /** Moves one supported proof, if it is there; a destination that is taken stops it. */
  method QuarantineProof(disk: Disk<Place>, i: nat, attempt: Option<nat>, ghost c: Commit, ghost start: nat)
    returns (ok: bool, moved: bool)
    requires Waiting(c, disk.files) && start <= |disk.log| && AllSafe(c, disk.log, start)
    modifies disk
    ensures Waiting(c, disk.files) && start <= |disk.log| && AllSafe(c, disk.log, start)
    ensures ok ==> At(disk.files, Proof(i)).None? && (moved <==> At(old(disk.files), Proof(i)).Some?)
    ensures ok && moved ==> At(disk.files, Quarantined(attempt, i)) == At(old(disk.files), Proof(i))
    ensures disk.reliable && (At(old(disk.files), Proof(i)).Some? ==> At(old(disk.files), Quarantined(attempt, i)).None?) ==> ok
    ensures forall p :: p != Proof(i) && p != Quarantined(attempt, i) ==> At(disk.files, p) == At(old(disk.files), p)
  {
    moved := false;
    var readable, proof := disk.Read(Proof(i));
    ok := readable;
    if ok && proof.Some? {
      if Quarantined(attempt, i) in disk.files { return false, false; }
      ok := MoveBefore(disk, Proof(i), Quarantined(attempt, i), c, start);
      moved := true;
    }
  }

  /** Each proof that is there has its place in quarantine free. */
  predicate Movable(attempt: Option<nat>, files: Files<Place>) {
    forall i :: 0 <= i < 3 && At(files, Proof(i)).Some? ==> At(files, Quarantined(attempt, i)).None?
  }

  /** Moves every supported proof out of the way. */
  method QuarantineProofs(disk: Disk<Place>, attempt: Option<nat>, ghost c: Commit, ghost start: nat)
    returns (ok: bool, any: bool)
    requires Waiting(c, disk.files) && start <= |disk.log| && AllSafe(c, disk.log, start)
    modifies disk
    ensures Waiting(c, disk.files) && start <= |disk.log| && AllSafe(c, disk.log, start)
    ensures ok ==> NoProofs(disk.files) && (any <==> !NoProofs(old(disk.files)))
    ensures disk.reliable && Movable(attempt, old(disk.files)) ==> ok
    ensures ok ==> forall i :: 0 <= i < 3 && At(old(disk.files), Proof(i)).Some? ==>
                     At(disk.files, Quarantined(attempt, i)) == At(old(disk.files), Proof(i))
    ensures forall p :: !MovedPlace(attempt, p) ==> At(disk.files, p) == At(old(disk.files), p)
  {
    hide AllSafe, Waiting, At;
    ok, any := true, false;
    for i := 0 to 3
      invariant Waiting(c, disk.files) && start <= |disk.log| && AllSafe(c, disk.log, start)
      invariant forall k :: 0 <= k < i ==> At(disk.files, Proof(k)).None?
      invariant forall k :: 0 <= k < i && At(old(disk.files), Proof(k)).Some? ==>
                  At(disk.files, Quarantined(attempt, k)) == At(old(disk.files), Proof(k))
      invariant forall k :: i <= k < 3 ==> At(disk.files, Proof(k)) == At(old(disk.files), Proof(k))
      invariant forall k :: i <= k < 3 ==> At(disk.files, Quarantined(attempt, k)) == At(old(disk.files), Quarantined(attempt, k))
      invariant any <==> exists k :: 0 <= k < i && At(old(disk.files), Proof(k)).Some?
      invariant forall p :: !MovedPlace(attempt, p) ==> At(disk.files, p) == At(old(disk.files), p)
    {
      var moved;
      ok, moved := QuarantineProof(disk, i, attempt, c, start);
      if !ok { return; }
      any := any || moved;
    }
    ok := true;
  }

  // ---------------------------------------------------------------------------------------------
  // Apply
  // ---------------------------------------------------------------------------------------------

  datatype Applied = Migrated | NotMigrated | AutoRestored | Manual

  function ApplyCommit(plan: Plan): Commit {
    Commit(plan.sourceConfig, plan.targetConfig, map[ConfigBackup := plan.sourceConfig, ProfileBackup := plan.sourceText,
                                                     Target := plan.targetText, Receipt := plan.receiptText])
  }

  lemma ApplyIsReady(plan: Plan, files: Files<Place>)
    ensures Ready(ApplyCommit(plan), files) <==>
              && NoProofs(files)
              && At(files, ConfigBackup) == Some(plan.sourceConfig) && At(files, ProfileBackup) == Some(plan.sourceText)
              && At(files, Target) == Some(plan.targetText) && At(files, Receipt) == Some(plan.receiptText)
  {
    hide NoProofs, At;
    var holds := ApplyCommit(plan).holds;
    assert ConfigBackup in holds && ProfileBackup in holds && Target in holds && Receipt in holds;
  }

  method InputsUnchanged(disk: Disk<Place>, plan: Plan) returns (ok: bool)
    ensures ok ==> At(disk.files, Config) == Some(plan.sourceConfig) && At(disk.files, plan.sourceProfile) == Some(plan.sourceText)
    ensures disk.reliable && At(disk.files, Config) == Some(plan.sourceConfig) && At(disk.files, plan.sourceProfile) == Some(plan.sourceText) ==> ok
  {
    var readable, content := disk.Read(Config);
    if !readable || content != Some(plan.sourceConfig) { return false; }
    readable, content := disk.Read(plan.sourceProfile);
    return readable && content == Some(plan.sourceText);
  }

  predicate BackedUp(plan: Plan, files: Files<Place>) {
    At(files, ConfigBackup) == Some(plan.sourceConfig) && At(files, ProfileBackup) == Some(plan.sourceText)
  }

  method BackUp(disk: Disk<Place>, plan: Plan, ghost start: nat) returns (ok: bool)
    requires Waiting(ApplyCommit(plan), disk.files) && start <= |disk.log| && AllSafe(ApplyCommit(plan), disk.log, start)
    modifies disk
    ensures Waiting(ApplyCommit(plan), disk.files) && start <= |disk.log| && AllSafe(ApplyCommit(plan), disk.log, start)
    ensures ok ==> BackedUp(plan, disk.files)
    ensures disk.reliable ==> ok
    ensures forall p: Place :: !p.ConfigBackup? && !p.ProfileBackup? ==> At(disk.files, p) == At(old(disk.files), p)
  {
    hide AllSafe, Waiting;
    ghost var c := ApplyCommit(plan);
    ok := PutBefore(disk, ConfigBackup, plan.sourceConfig, c, start);
    if !ok { return; }
    ok := PutBefore(disk, ProfileBackup, plan.sourceText, c, start);
  }

  method WriteTarget(disk: Disk<Place>, plan: Plan, ghost start: nat) returns (ok: bool)
    requires Waiting(ApplyCommit(plan), disk.files) && start <= |disk.log| && AllSafe(ApplyCommit(plan), disk.log, start)
    modifies disk
    ensures Waiting(ApplyCommit(plan), disk.files) && start <= |disk.log| && AllSafe(ApplyCommit(plan), disk.log, start)
    ensures ok ==> At(disk.files, Target) == Some(plan.targetText) && At(disk.files, Receipt) == Some(plan.receiptText)
    ensures disk.reliable && At(old(disk.files), Target) in {None, Some(plan.targetText)} ==> ok
    ensures forall p: Place :: !p.Target? && !p.Receipt? ==> At(disk.files, p) == At(old(disk.files), p)
  {
    hide AllSafe, Waiting;
    ghost var c := ApplyCommit(plan);
    var readable, target := disk.Read(Target);
    if !readable || (target.Some? && target != Some(plan.targetText)) { return false; }
    if target.None? {
      ok := PutBefore(disk, Target, plan.targetText, c, start);
      if !ok { return; }
    }
    ok := PutBefore(disk, Receipt, plan.receiptText, c, start);
  }

  /** Backups, target profile, receipt, and the proofs out of the way. */
  method PrepareApply(disk: Disk<Place>, plan: Plan, ghost start: nat) returns (ok: bool)
    requires Sensible(plan) && At(disk.files, Config) == Some(plan.sourceConfig)
    requires start <= |disk.log| && AllSafe(ApplyCommit(plan), disk.log, start)
    modifies disk
    ensures start <= |disk.log| && AllSafe(ApplyCommit(plan), disk.log, start)
    ensures ok ==> Ready(ApplyCommit(plan), disk.files)
    ensures disk.reliable && At(old(disk.files), Target) in {None, Some(plan.targetText)} && Movable(None, old(disk.files)) ==> ok
    ensures forall p: Place :: p.RollbackQuarantine? || p.InvalidFallback? ==> At(disk.files, p) == At(old(disk.files), p)
    ensures ok ==> forall i :: 0 <= i < 3 && At(old(disk.files), Proof(i)).Some? ==>
                     At(disk.files, ApplyQuarantine(i)) == At(old(disk.files), Proof(i))
    ensures At(disk.files, Config) == At(old(disk.files), Config)
    ensures At(disk.files, Original) == At(old(disk.files), Original) && At(disk.files, Fallback) == At(old(disk.files), Fallback)
  {
    hide AllSafe, Ready, NoProofs, At;
    ok := BackUp(disk, plan, start);
    if !ok { return; }
    ok := WriteTarget(disk, plan, start);
    if !ok { return; }
    var any;
    ok, any := QuarantineProofs(disk, None, ApplyCommit(plan), start);
    assert forall i :: 0 <= i < 3 ==> Quarantined(None, i) == ApplyQuarantine(i);
    ApplyIsReady(plan, disk.files);
  }

  method ValidateCommitted(disk: Disk<Place>, plan: Plan) returns (ok: bool)
    ensures ok ==> At(disk.files, Config) == Some(plan.targetConfig) && At(disk.files, Target) == Some(plan.targetText)
    ensures disk.reliable && Done(ApplyCommit(plan), disk.files) && Ready(ApplyCommit(plan), disk.files) ==> ok
  {
    ApplyIsReady(plan, disk.files);
    var readable, content := disk.Read(Config);
    if !readable || content != Some(plan.targetConfig) { return false; }
    readable, content := disk.Read(Target);
    if !readable || content != Some(plan.targetText) { return false; }
    for i := 0 to 3 {
      readable, content := disk.Read(Proof(i));
      if !readable || content.Some? { return false; }
    }
    return true;
  }

  /** Config and profile are the planned ones, nothing else is in the place of the target profile, and the proofs
      can be moved: then the migration can only fail by a fault. */
  predicate Migratable(plan: Plan, files: Files<Place>) {
    && At(files, Config) == Some(plan.sourceConfig) && At(files, plan.sourceProfile) == Some(plan.sourceText)
    && At(files, Target) in {None, Some(plan.targetText)} && Movable(None, files)
  }

  /** At every crash point the config is the target's only with backups, target profile and receipt on disk and
      no supported proof left; a failure that reports an automatic restore has the source config back. */
  method Apply(disk: Disk<Place>, plan: Plan) returns (result: Applied)
    requires Sensible(plan)
    modifies disk
    ensures |old(disk.log)| <= |disk.log| && AllSafe(ApplyCommit(plan), disk.log, |old(disk.log)|)
    ensures result.Migrated? ==>
              Done(ApplyCommit(plan), disk.files) && Ready(ApplyCommit(plan), disk.files) &&
              At(old(disk.files), Config) == Some(plan.sourceConfig) && At(old(disk.files), plan.sourceProfile) == Some(plan.sourceText)
    ensures result.Migrated? ==> forall i :: 0 <= i < 3 && At(old(disk.files), Proof(i)).Some? ==>
              At(disk.files, ApplyQuarantine(i)) == At(old(disk.files), Proof(i))
    ensures result.AutoRestored? ==> At(disk.files, Config) == At(old(disk.files), Config) == Some(plan.sourceConfig)
    ensures result.NotMigrated? ==> At(disk.files, Config) == At(old(disk.files), Config)
    ensures disk.reliable && Migratable(plan, old(disk.files)) ==> result.Migrated?
    ensures forall p: Place :: p.RollbackQuarantine? || p.InvalidFallback? ==> At(disk.files, p) == At(old(disk.files), p)
    ensures At(disk.files, Original) == At(old(disk.files), Original) && At(disk.files, Fallback) == At(old(disk.files), Fallback)
  {
    assert AllSafe(ApplyCommit(plan), disk.log, |disk.log|);
    hide AllSafe, Ready, NoProofs, Movable;
    ghost var start := |disk.log|;
    var ok := InputsUnchanged(disk, plan);
    if !ok { return NotMigrated; }
    ok := PrepareApply(disk, plan, start);
    if !ok { return NotMigrated; }
    ok := InputsUnchanged(disk, plan);
    var failed := disk.Fails();
    if !ok || failed { return NotMigrated; }
    result := CommitApply(disk, plan, start);
  }

  predicate IsMarker(p: Place) { p.CommittedMarker? || p.RebuildMarker? || p.AutoRolledBack? }

  /** The commit and its validation. */
  method CommitApply(disk: Disk<Place>, plan: Plan, ghost start: nat) returns (result: Applied)
    requires Waiting(ApplyCommit(plan), disk.files) && Ready(ApplyCommit(plan), disk.files)
    requires start <= |disk.log| && AllSafe(ApplyCommit(plan), disk.log, start)
    modifies disk
    ensures start <= |disk.log| && AllSafe(ApplyCommit(plan), disk.log, start) && !result.NotMigrated?
    ensures result.Migrated? ==> Done(ApplyCommit(plan), disk.files) && Ready(ApplyCommit(plan), disk.files)
    ensures result.AutoRestored? ==> At(disk.files, Config) == Some(plan.sourceConfig)
    ensures disk.reliable ==> result.Migrated?
    ensures forall p: Place :: !p.Config? && !IsMarker(p) ==> At(disk.files, p) == At(old(disk.files), p)
  {
    hide AllSafe, Ready, NoProofs;
    ghost var c := ApplyCommit(plan);
    var ok := PutConfig(disk, plan.targetConfig, c, start);
    if !ok { return Manual; }
    ok := ValidateCommitted(disk, plan);
    if ok {
      var _ := PutAfter(disk, CommittedMarker, plan.marker, c, start);
      var _ := PutAfter(disk, RebuildMarker, plan.marker, c, start);
      return Migrated;
    }
    result := RestoreSource(disk, plan, start);
  }

  /** After a failed validation: the source config comes back, unless another one is found. */
  method RestoreSource(disk: Disk<Place>, plan: Plan, ghost start: nat) returns (result: Applied)
    requires Waiting(ApplyCommit(plan), disk.files) || Done(ApplyCommit(plan), disk.files)
    requires Ready(ApplyCommit(plan), disk.files) && start <= |disk.log| && AllSafe(ApplyCommit(plan), disk.log, start)
    modifies disk
    ensures start <= |disk.log| && AllSafe(ApplyCommit(plan), disk.log, start)
    ensures result.AutoRestored? || result.Manual?
    ensures result.AutoRestored? ==> At(disk.files, Config) == Some(plan.sourceConfig)
    ensures forall p: Place :: !p.Config? && !p.AutoRolledBack? ==> At(disk.files, p) == At(old(disk.files), p)
  {
    hide AllSafe, Ready;
    ghost var c := ApplyCommit(plan);
    var ok;
    var readable, live := disk.Read(Config);
    if readable && live == Some(plan.targetConfig) {
      ok := PutConfig(disk, plan.sourceConfig, c, start);
      if !ok { return Manual; }
    } else if !readable || live != Some(plan.sourceConfig) {
      return Manual;
    }
    readable, live := disk.Read(Config);
    if !readable || live != Some(plan.sourceConfig) { return Manual; }
    ok := PutAfter(disk, AutoRolledBack, plan.marker, c, start);
    return if ok then AutoRestored else Manual;
  }

  /** Writes a marker the commit does not depend on. */
  method PutAfter(disk: Disk<Place>, p: Place, content: Content, ghost c: Commit, ghost start: nat) returns (ok: bool)
    requires p.CommittedMarker? || p.RebuildMarker? || p.AutoRolledBack? || p.RolledBackReceipt?
    requires Waiting(c, disk.files) || Done(c, disk.files)
    requires p !in c.holds && Ready(c, disk.files) && start <= |disk.log| && AllSafe(c, disk.log, start)
    modifies disk
    ensures start <= |disk.log| && AllSafe(c, disk.log, start) && Ready(c, disk.files)
    ensures forall q :: q != p ==> At(disk.files, q) == At(old(disk.files), q)
  {
    ok := disk.Put(p, Some(content));
  }

  // ---------------------------------------------------------------------------------------------
  // Rollback
  // ---------------------------------------------------------------------------------------------

  datatype Mode = ToSource | SourceVerify | SourceRepair | SourceCleanup | FallbackVerify | FallbackRepair | FallbackCleanup

  /** The config text to return to, and where it finds the profile. */
  datatype Restored = Restored(text: Content, profile: Place, exact: bool)

  datatype Outcome = RolledBack(changed: bool) | Refused | Unfinished

  /** The v1 state: no supported proof, and either the config of before the migration with its profile, or the
      fallback config with the same profile bytes. */
  predicate Returned(plan: Plan, files: Files<Place>) {
    && NoProofs(files)
    && ((At(files, Config) == Some(plan.sourceConfig) && At(files, plan.sourceProfile) == Some(plan.sourceText)) ||
        (At(files, Config) == Some(plan.fallbackConfig) && At(files, Fallback) == Some(plan.sourceText)))
  }

  predicate IsRestored(plan: Plan, r: Restored) {
    r == Restored(plan.sourceConfig, plan.sourceProfile, true) || r == Restored(plan.fallbackConfig, Fallback, false)
  }

  function ReturnCommit(plan: Plan, current: Content, r: Restored): Commit {
    Commit(current, r.text, map[r.profile := plan.sourceText])
  }

  /** A readable private v1 profile with the expected bytes. */
  method LegacyProfileIsValid(disk: Disk<Place>, p: Place, text: Content) returns (ok: bool, valid: bool)
    ensures ok ==> (valid <==> At(disk.files, p) == Some(text))
    ensures disk.reliable ==> ok
  {
    var content;
    ok, content := disk.Read(p);
    valid := ok && content == Some(text);
  }

  method HasAnyProof(disk: Disk<Place>) returns (ok: bool, found: bool)
    ensures ok ==> (found <==> !NoProofs(disk.files))
    ensures disk.reliable ==> ok
  {
    ok, found := true, false;
    for i := 0 to 3
      invariant ok && !found && forall k :: 0 <= k < i ==> At(disk.files, Proof(k)).None?
    {
      var proof;
      ok, proof := disk.Read(Proof(i));
      if !ok { return; }
      if proof.Some? { return true, true; }
    }
  }

  method PlanRestoredConfig(disk: Disk<Place>, plan: Plan, forceFallback: bool) returns (ok: bool, r: Restored)
    ensures IsRestored(plan, r)
    ensures disk.reliable ==> ok
    ensures ok ==> (r.exact <==> !forceFallback && At(disk.files, plan.sourceProfile) == Some(plan.sourceText))
    ensures r.exact ==> r.text == plan.sourceConfig && r.profile == plan.sourceProfile
    ensures !r.exact ==> r.text == plan.fallbackConfig && r.profile == Fallback
  {
    r := Restored(plan.fallbackConfig, Fallback, false);
    ok := true;
    if forceFallback { return; }
    var valid;
    ok, valid := LegacyProfileIsValid(disk, plan.sourceProfile, plan.sourceText);
    if ok && valid { r := Restored(plan.sourceConfig, plan.sourceProfile, true); }
  }

  /** Brings the fallback profile to the backed-up bytes; an invalid one is set aside first. */
  method MaterializeRestoredProfile(disk: Disk<Place>, plan: Plan, r: Restored, n: nat, ghost c: Commit, ghost start: nat)
    returns (ok: bool)
    requires IsRestored(plan, r) && Waiting(c, disk.files) && start <= |disk.log| && AllSafe(c, disk.log, start)
    requires plan.sourceProfile.Original? || plan.sourceProfile.Fallback?
    modifies disk
    ensures Waiting(c, disk.files) && start <= |disk.log| && AllSafe(c, disk.log, start)
    ensures ok ==> At(disk.files, r.profile) == Some(plan.sourceText)
    ensures disk.reliable && !r.exact && At(old(disk.files), InvalidFallback(n)).None? ==> ok
    ensures disk.reliable && At(old(disk.files), r.profile) == Some(plan.sourceText) ==> ok
    ensures forall p: Place :: p != Fallback && p != InvalidFallback(n) ==> At(disk.files, p) == At(old(disk.files), p)
    ensures r.exact ==> disk.files == old(disk.files)
    ensures At(old(disk.files), r.profile) == Some(plan.sourceText) ==> disk.files == old(disk.files) && disk.log == old(disk.log)
  {
    var readable, valid := LegacyProfileIsValid(disk, r.profile, plan.sourceText);
    if !readable { return false; }
    if r.exact || valid { return valid; }
    var present;
    readable, present := disk.Read(r.profile);
    if !readable { return false; }
    if present.Some? {
      if InvalidFallback(n) in disk.files { return false; }
      ok := MoveBefore(disk, r.profile, InvalidFallback(n), c, start);
      if !ok { return; }
    }
    ok := PutBefore(disk, r.profile, plan.sourceText, c, start);
    if !ok { return; }
    readable, valid := LegacyProfileIsValid(disk, r.profile, plan.sourceText);
    ok := readable && valid;
  }

  /** What the config says about how far an earlier rollback came. */
  function FirstMode(plan: Plan, current: Content): Option<Mode> {
    if current == plan.sourceConfig then Some(SourceVerify)
    else if current == plan.fallbackConfig then Some(FallbackVerify)
    else if current == plan.targetConfig then Some(ToSource)
    else None
  }

  predicate Cleanup(mode: Mode) { mode.SourceCleanup? || mode.FallbackCleanup? }

  /** The mode after looking at the live profile and the proofs; `done` when nothing is left to do. */
  method Classify(disk: Disk<Place>, plan: Plan, first: Mode) returns (ok: bool, done: bool, mode: Mode)
    requires first.ToSource? || first.SourceVerify? || first.FallbackVerify?
    ensures disk.reliable ==> ok
    ensures ok && done ==>
              !first.ToSource? && NoProofs(disk.files) &&
              At(disk.files, if first.SourceVerify? then plan.sourceProfile else Fallback) == Some(plan.sourceText)
    ensures ok && !done ==>
              (if first.ToSource? then mode == ToSource
               else
                 var valid := At(disk.files, if first.SourceVerify? then plan.sourceProfile else Fallback) == Some(plan.sourceText);
                 && !(valid && NoProofs(disk.files))
                 && mode == (if first.SourceVerify? then (if valid then SourceCleanup else SourceRepair)
                             else if valid then FallbackCleanup else FallbackRepair))
  {
    ok, done, mode := true, false, first;
    if first.ToSource? { return; }
    var valid, proofs;
    ok, valid := LegacyProfileIsValid(disk, if first.SourceVerify? then plan.sourceProfile else Fallback, plan.sourceText);
    if !ok { return; }
    ok, proofs := HasAnyProof(disk);
    if !ok { return; }
    done := valid && !proofs;
    mode := if first.SourceVerify? then (if valid then SourceCleanup else SourceRepair)
            else if valid then FallbackCleanup else FallbackRepair;
  }

  /** A second look once the text to return to is known. */
  method Reclassify(disk: Disk<Place>, plan: Plan, first: Mode, r: Restored) returns (ok: bool, done: bool, mode: Mode)
    requires IsRestored(plan, r)
    ensures disk.reliable ==> ok
    ensures ok && !done && Cleanup(mode) && !Cleanup(first) ==> !NoProofs(disk.files)
    ensures ok && !done && Cleanup(mode) && !r.exact ==> At(disk.files, r.profile) == Some(plan.sourceText)
    ensures ok && done ==> NoProofs(disk.files)
    ensures ok && done ==>
              (first.SourceRepair? && r.exact) || (first.FallbackRepair? && At(disk.files, r.profile) == Some(plan.sourceText))
    ensures ok && !done ==> mode.ToSource? == first.ToSource?
    ensures ok && !done && Cleanup(mode) ==>
              (first.SourceCleanup? && r.exact) || (first.SourceRepair? && r.exact) || first.FallbackCleanup? || first.FallbackRepair?
  {
    ok, done, mode := true, false, first;
    if first.SourceCleanup? {
      if !r.exact { mode := SourceRepair; }
      return;
    }
    var valid := false;
    if first.FallbackCleanup? || first.FallbackRepair? {
      ok, valid := LegacyProfileIsValid(disk, r.profile, plan.sourceText);
      if !ok { return; }
    }
    if first.FallbackCleanup? {
      if !valid { mode := FallbackRepair; }
      return;
    }
    if (first.SourceRepair? && r.exact) || (first.FallbackRepair? && valid) {
      var proofs;
      ok, proofs := HasAnyProof(disk);
      if !ok { return; }
      done := !proofs;
      mode := if r.exact then SourceCleanup else FallbackCleanup;
    }
  }

  /** Untouched by the preparation of rollback `n`. */
  predicate Kept(n: nat, p: Place) {
    !ProofPlace(p) && p != Prepared(n) && p != PreRollback(n) && p != Fallback && p != InvalidFallback(n)
  }

  /** The names of rollback `n` are free as far as it needs them, and the mode agrees with the disk. */
  predicate Returnable(plan: Plan, mode: Mode, r: Restored, n: nat, files: Files<Place>) {
    && Movable(Some(n), files) && At(files, InvalidFallback(n)).None?
    && (Cleanup(mode) ==> !NoProofs(files))
    && (Cleanup(mode) || r.exact ==> At(files, r.profile) == Some(plan.sourceText))
  }

  /** Everything up to the commit: receipt, copy of the present config, proofs out of the way, profile in place. */
  method PrepareRollback(disk: Disk<Place>, plan: Plan, mode: Mode, r: Restored, n: nat, current: Content, ghost start: nat)
    returns (ok: bool)
    requires Sensible(plan) && IsRestored(plan, r) && Waiting(ReturnCommit(plan, current, r), disk.files)
    requires start <= |disk.log| && AllSafe(ReturnCommit(plan, current, r), disk.log, start)
    modifies disk
    ensures Waiting(ReturnCommit(plan, current, r), disk.files)
    ensures start <= |disk.log| && AllSafe(ReturnCommit(plan, current, r), disk.log, start)
    ensures ok ==> NoProofs(disk.files) && At(disk.files, r.profile) == Some(plan.sourceText)
    ensures disk.reliable && Returnable(plan, mode, r, n, old(disk.files)) ==> ok
    ensures ok ==> forall i :: 0 <= i < 3 && At(old(disk.files), Proof(i)).Some? ==>
                     At(disk.files, RollbackQuarantine(n, i)) == At(old(disk.files), Proof(i))
    ensures forall p :: Kept(n, p) ==> At(disk.files, p) == At(old(disk.files), p)
  {
    hide AllSafe, Waiting, Returned, NoProofs, Movable, Returnable, ProfileReturnable, At;
    ghost var c, first := ReturnCommit(plan, current, r), disk.files;
    ok := PutBefore(disk, Prepared(n), plan.marker, c, start);
    if !ok { return; }
    ok := PutBefore(disk, PreRollback(n), current, c, start);
    if !ok { return; }
    SameProofs(plan, mode, r, n, first, disk.files);
    ok := QuarantineForRollback(disk, mode, n, c, start);
    if !ok { return; }
    SameProfile(plan, mode, r, n, current, first, disk.files);
    ok := ProfileForRollback(disk, plan, mode, r, n, current, c, start);
  }

  lemma SameProofs(plan: Plan, mode: Mode, r: Restored, n: nat, before: Files<Place>, after: Files<Place>)
    requires forall p :: p != Prepared(n) && p != PreRollback(n) ==> At(after, p) == At(before, p)
    ensures Returnable(plan, mode, r, n, before) ==> Movable(Some(n), after) && (Cleanup(mode) ==> !NoProofs(after))
  {
    assert forall i :: 0 <= i < 3 ==> At(after, Proof(i)) == At(before, Proof(i));
    assert forall i :: At(after, Quarantined(Some(n), i)) == At(before, Quarantined(Some(n), i));
  }

  lemma SameProfile(plan: Plan, mode: Mode, r: Restored, n: nat, current: Content, before: Files<Place>, after: Files<Place>)
    requires IsRestored(plan, r) && (plan.sourceProfile.Original? || plan.sourceProfile.Fallback?)
    requires forall p :: !ProofPlace(p) && p != Prepared(n) && p != PreRollback(n) ==> At(after, p) == At(before, p)
    requires Waiting(ReturnCommit(plan, current, r), before)
    ensures Returnable(plan, mode, r, n, before) ==> ProfileReturnable(plan, mode, r, n, current, after)
  {
  }

  method QuarantineForRollback(disk: Disk<Place>, mode: Mode, n: nat, ghost c: Commit, ghost start: nat) returns (ok: bool)
    requires Waiting(c, disk.files) && start <= |disk.log| && AllSafe(c, disk.log, start)
    modifies disk
    ensures Waiting(c, disk.files) && start <= |disk.log| && AllSafe(c, disk.log, start)
    ensures ok ==> NoProofs(disk.files)
    ensures disk.reliable && Movable(Some(n), old(disk.files)) && (Cleanup(mode) ==> !NoProofs(old(disk.files))) ==> ok
    ensures ok ==> forall i :: 0 <= i < 3 && At(old(disk.files), Proof(i)).Some? ==>
                     At(disk.files, RollbackQuarantine(n, i)) == At(old(disk.files), Proof(i))
    ensures forall p :: !ProofPlace(p) ==> At(disk.files, p) == At(old(disk.files), p)
  {
    hide AllSafe, Waiting, NoProofs, At;
    var any;
    ok, any := QuarantineProofs(disk, Some(n), c, start);
    assert forall i :: 0 <= i < 3 ==> Quarantined(Some(n), i) == RollbackQuarantine(n, i);
    if ok && Cleanup(mode) && !any { ok := false; }
  }

  predicate ProfileReturnable(plan: Plan, mode: Mode, r: Restored, n: nat, current: Content, files: Files<Place>) {
    && At(files, Config) == Some(current) && At(files, InvalidFallback(n)).None?
    && (Cleanup(mode) || r.exact ==> At(files, r.profile) == Some(plan.sourceText))
  }

  method ProfileForRollback(disk: Disk<Place>, plan: Plan, mode: Mode, r: Restored, n: nat, current: Content,
                            ghost c: Commit, ghost start: nat) returns (ok: bool)
    requires Sensible(plan) && IsRestored(plan, r) && NoProofs(disk.files)
    requires Waiting(c, disk.files) && start <= |disk.log| && AllSafe(c, disk.log, start)
    modifies disk
    ensures Waiting(c, disk.files) && start <= |disk.log| && AllSafe(c, disk.log, start) && NoProofs(disk.files)
    ensures ok ==> At(disk.files, r.profile) == Some(plan.sourceText)
    ensures disk.reliable && ProfileReturnable(plan, mode, r, n, current, old(disk.files)) ==> ok
    ensures forall p: Place :: p != Fallback && p != InvalidFallback(n) ==> At(disk.files, p) == At(old(disk.files), p)
  {
    hide AllSafe, Waiting;
    var readable, live := disk.Read(Config);
    if !readable || live != Some(current) { return false; }
    var failed := disk.Fails();
    if failed { return false; }
    if Cleanup(mode) {
      readable, ok := LegacyProfileIsValid(disk, r.profile, plan.sourceText);
      ok := readable && ok;
    } else {
      ok := MaterializeRestoredProfile(disk, plan, r, n, c, start);
    }
    if !ok { return; }
    readable, live := disk.Read(Config);
    failed := disk.Fails();
    ok := readable && live == Some(current) && !failed;
  }

  /** The commit and its verification; when that fails, the config of before the operation comes back. */
  method CommitRollback(disk: Disk<Place>, plan: Plan, r: Restored, n: nat, current: Content, ghost start: nat) returns (ok: bool)
    requires Sensible(plan) && IsRestored(plan, r) && Waiting(ReturnCommit(plan, current, r), disk.files)
    requires Ready(ReturnCommit(plan, current, r), disk.files)
    requires start <= |disk.log| && AllSafe(ReturnCommit(plan, current, r), disk.log, start)
    modifies disk
    ensures start <= |disk.log| && AllSafe(ReturnCommit(plan, current, r), disk.log, start)
    ensures ok ==> Done(ReturnCommit(plan, current, r), disk.files) && Ready(ReturnCommit(plan, current, r), disk.files)
    ensures disk.reliable ==> ok
    ensures forall p: Place :: !p.Config? && p != RolledBackReceipt(n) ==> At(disk.files, p) == At(old(disk.files), p)
  {
    hide AllSafe, Ready;
    ghost var c := ReturnCommit(plan, current, r);
    if r.text != current {
      ok := PutConfig(disk, r.text, c, start);
      if !ok { return; }
    }
    var readable, live := disk.Read(Config);
    ok := readable && live == Some(r.text);
    var profileReadable, profile := disk.Read(r.profile);
    ok := ok && profileReadable && profile == Some(plan.sourceText);
    assert disk.reliable ==> ok by { ReadyProfile(plan, current, r, disk.files); }
    if !ok {
      readable, live := disk.Read(Config);
      if readable && live == Some(r.text) && r.text != current {
        var _ := PutConfig(disk, current, c, start);
      }
      return false;
    }
    var _ := PutAfter(disk, RolledBackReceipt(n), plan.marker, c, start);
  }

  /** No change leaves the config anywhere but where it was or in the v1 state. */
  ghost predicate AllReturned(plan: Plan, before: Option<Content>, log: seq<Change<Place>>, start: nat) {
    forall i :: start <= i < |log| ==> At(log[i].after, Config) == before || Returned(plan, log[i].after)
  }

  lemma SafeIsReturned(plan: Plan, current: Content, r: Restored, log: seq<Change<Place>>, start: nat)
    requires IsRestored(plan, r) && AllSafe(ReturnCommit(plan, current, r), log, start)
    ensures AllReturned(plan, Some(current), log, start)
  {
    hide AllReturned;
    forall i | start <= i < |log| ensures At(log[i].after, Config) == Some(current) || Returned(plan, log[i].after) {
      if !Waiting(ReturnCommit(plan, current, r), log[i].after) { ReadyIsReturned(plan, current, r, log[i].after); }
    }
    assert AllReturned(plan, Some(current), log, start) by { SpellOut(plan, current, log, start); }
  }

  lemma SpellOut(plan: Plan, current: Content, log: seq<Change<Place>>, start: nat)
    requires forall i :: start <= i < |log| ==> At(log[i].after, Config) == Some(current) || Returned(plan, log[i].after)
    ensures AllReturned(plan, Some(current), log, start)
  {
  }

  lemma ReadyIsReturned(plan: Plan, current: Content, r: Restored, files: Files<Place>)
    requires IsRestored(plan, r) && Done(ReturnCommit(plan, current, r), files) && Ready(ReturnCommit(plan, current, r), files)
    ensures Returned(plan, files)
  {
    assert r.profile in ReturnCommit(plan, current, r).holds;
  }

  /** Decides how to return: nothing to do, or a text to return to and a mode. */
  method Decide(disk: Disk<Place>, plan: Plan, first: Mode) returns (ok: bool, done: bool, mode: Mode, r: Restored)
    requires Sensible(plan) && (first.ToSource? || first.SourceVerify? || first.FallbackVerify?)
    ensures IsRestored(plan, r)
    ensures disk.reliable ==> ok
    ensures ok && !done && Cleanup(mode) ==> !NoProofs(disk.files)
    ensures ok && !done && (Cleanup(mode) || r.exact) ==> At(disk.files, r.profile) == Some(plan.sourceText)
    ensures ok && done ==> NoProofs(disk.files)
    ensures ok && done && first.SourceVerify? ==> At(disk.files, plan.sourceProfile) == Some(plan.sourceText)
    ensures ok && done && first.FallbackVerify? ==> At(disk.files, Fallback) == Some(plan.sourceText)
    ensures ok && done ==> !first.ToSource?
    ensures ok && !done && first.SourceVerify? ==> !(NoProofs(disk.files) && At(disk.files, plan.sourceProfile) == Some(plan.sourceText))
    ensures ok && !done && first.FallbackVerify? ==> !(NoProofs(disk.files) && At(disk.files, Fallback) == Some(plan.sourceText))
    ensures ok && !done && !first.FallbackVerify? ==>
              (r.exact <==> At(disk.files, plan.sourceProfile) == Some(plan.sourceText))
  {
    r := Restored(plan.fallbackConfig, Fallback, false);
    ok, done, mode := Classify(disk, plan, first);
    if !ok || done { return; }
    ok, r := PlanRestoredConfig(disk, plan, mode.FallbackRepair? || mode.FallbackCleanup?);
    if !ok { return; }
    ok, done, mode := Reclassify(disk, plan, mode, r);
  }

  /** The original profile still has its bytes, and no earlier rollback had to fall back. */
  predicate ProfileIntact(plan: Plan, files: Files<Place>) {
    At(files, plan.sourceProfile) == Some(plan.sourceText) && At(files, Config) != Some(plan.fallbackConfig)
  }

  /** The backups are there, the config is a known one, and the names of the rollback are free if it needs them:
      then it can only fail by a fault. */
  predicate CanRollBack(plan: Plan, n: nat, files: Files<Place>) {
    && BackedUp(plan, files) && At(files, Config).Some? && FirstMode(plan, At(files, Config).value).Some?
    && (Returned(plan, files) || (Movable(Some(n), files) && At(files, InvalidFallback(n)).None?))
  }

  /** Rolls a migration back.  On success the v1 state is reached; from a config of before or after the migration
      it is the exact config bytes whenever the original profile still has its bytes.  In the v1 state it changes
      nothing, whatever happens; and wherever it stops, the config is as it was or the v1 state is complete. */
  method Rollback(disk: Disk<Place>, plan: Plan, n: nat) returns (outcome: Outcome)
    requires Sensible(plan)
    modifies disk
    ensures |old(disk.log)| <= |disk.log| && AllReturned(plan, At(old(disk.files), Config), disk.log, |old(disk.log)|)
    ensures outcome.RolledBack? ==> Returned(plan, disk.files)
    ensures disk.reliable && CanRollBack(plan, n, old(disk.files)) ==> outcome.RolledBack?
    ensures outcome.RolledBack? && ProfileIntact(plan, old(disk.files)) ==> At(disk.files, Config) == Some(plan.sourceConfig)
    ensures outcome.RolledBack? && outcome.changed ==> forall i :: 0 <= i < 3 && At(old(disk.files), Proof(i)).Some? ==>
              At(disk.files, RollbackQuarantine(n, i)) == At(old(disk.files), Proof(i))
    ensures Returned(plan, old(disk.files)) || outcome.Refused? || (outcome.RolledBack? && !outcome.changed) ==>
              disk.files == old(disk.files) && disk.log == old(disk.log)
    ensures At(disk.files, ConfigBackup) == At(old(disk.files), ConfigBackup)
    ensures At(disk.files, ProfileBackup) == At(old(disk.files), ProfileBackup)
  {
    hide AllReturned, AllSafe, Ready, NoProofs, Kept;
    ghost var start := |disk.log|;
    assert forall before :: AllReturned(plan, before, disk.log, start) by { NothingYet(plan, disk.log); }
    var readable, live := disk.Read(Config);
    if !readable || live.None? { return Refused; }
    var current := live.value;
    var backup;
    readable, backup := disk.Read(ConfigBackup);
    if !readable || backup != Some(plan.sourceConfig) { return Refused; }
    readable, backup := disk.Read(ProfileBackup);
    if !readable || backup != Some(plan.sourceText) { return Refused; }
    var first := FirstMode(plan, current);
    if first.None? { return Refused; }
    var ok, done, mode, r := Decide(disk, plan, first.value);
    if !ok { return Refused; }
    if done { return RolledBack(false); }
    ghost var c := ReturnCommit(plan, current, r);
    assert AllSafe(c, disk.log, start) by { NothingYetSafe(c, disk.log); }
    ok := PrepareRollback(disk, plan, mode, r, n, current, start);
    KeptPlaces(n);
    if !ok {
      SafeIsReturned(plan, current, r, disk.log, start);
      return Unfinished;
    }
    ReturnIsReady(plan, current, r, disk.files);
    ok := CommitRollback(disk, plan, r, n, current, start);
    SafeIsReturned(plan, current, r, disk.log, start);
    if !ok { return Unfinished; }
    ReadyIsReturned(plan, current, r, disk.files);
    return RolledBack(true);
  }

  lemma NothingYet(plan: Plan, log: seq<Change<Place>>)
    ensures forall before :: AllReturned(plan, before, log, |log|)
  {
  }

  lemma NothingYetSafe(c: Commit, log: seq<Change<Place>>)
    ensures AllSafe(c, log, |log|)
  {
  }

  lemma ReadyProfile(plan: Plan, current: Content, r: Restored, files: Files<Place>)
    requires Ready(ReturnCommit(plan, current, r), files)
    ensures At(files, r.profile) == Some(plan.sourceText)
  {
    assert r.profile in ReturnCommit(plan, current, r).holds;
  }

  lemma KeptPlaces(n: nat)
    ensures Kept(n, Config) && Kept(n, ConfigBackup) && Kept(n, ProfileBackup)
  {
  }

  lemma ReturnIsReady(plan: Plan, current: Content, r: Restored, files: Files<Place>)
    requires NoProofs(files) && At(files, r.profile) == Some(plan.sourceText)
    ensures Ready(ReturnCommit(plan, current, r), files)
  {
  }

  /** The names of rollback `n` are not in use. */
  predicate Unused(n: nat, files: Files<Place>) {
    At(files, InvalidFallback(n)).None? && forall i :: 0 <= i < 3 ==> At(files, RollbackQuarantine(n, i)).None?
  }

  /** Migrating and rolling back restores the config byte for byte and leaves no supported proof; doing it
      once more changes nothing.  Without faults it always completes. */
  method RoundTrip(disk: Disk<Place>, plan: Plan, n: nat, m: nat) returns (completed: bool)
    requires Sensible(plan)
    modifies disk
    ensures completed ==> At(disk.files, Config) == At(old(disk.files), Config) && Returned(plan, disk.files)
    ensures completed ==> At(disk.files, plan.sourceProfile) == At(old(disk.files), plan.sourceProfile)
    ensures disk.reliable && Migratable(plan, old(disk.files)) && Unused(n, old(disk.files)) ==> completed
  {
    hide AllReturned, AllSafe, Ready, NoProofs;
    var applied := Apply(disk, plan);
    if !applied.Migrated? { return false; }
    assert BackedUp(plan, disk.files) by { ApplyIsReady(plan, disk.files); }
    var outcome := Rollback(disk, plan, n);
    if !outcome.RolledBack? { return false; }
    ghost var once := disk.files;
    outcome := Rollback(disk, plan, m);
    assert disk.files == once;
    return outcome.RolledBack?;
  }
}
