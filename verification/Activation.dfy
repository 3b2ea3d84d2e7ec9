/** Activating a reviewed protocol profile: profile file, supported proof, approval receipt, then the config. */
module Activation {
  import opened Tables
  import opened Disks

  type Path = nat

  /** The files and texts of one activation.  `selects` tells which config texts name the candidate profile;
      `active` is the profile that the original config names.  Other writers act at the three hook points; what they
      do there may be anything. */
  datatype Plan = Plan(
    config: Path, profile: Path, backup: Path, proof: Path, proofAlias: Path, receipt: Path, active: Path,
    original: Content, target: Content, profileText: Content, proofText: Content, receiptText: Content, activeText: Content,
    selects: Content -> bool,
    beforeRename: Turn<Path>, afterRename: Turn<Path>, beforeCompensation: Turn<Path>)

  predicate Distinct(plan: Plan) {
    && plan.config != plan.profile && plan.config != plan.backup && plan.config != plan.proof
    && plan.config != plan.proofAlias && plan.config != plan.receipt
    && plan.profile != plan.backup && plan.profile != plan.proof && plan.profile != plan.proofAlias
    && plan.profile != plan.receipt && plan.backup != plan.proof && plan.backup != plan.proofAlias
    && plan.backup != plan.receipt && plan.proof != plan.proofAlias && plan.proof != plan.receipt
    && plan.proofAlias != plan.receipt
  }

  /** The live config names the candidate, and is not the config of before. */
  predicate Selected(plan: Plan, files: Files<Path>) {
    var live := At(files, plan.config);
    live.Some? && live.value != plan.original && plan.selects(live.value)
  }

  /** No other writer changes this content of `p`. */
  predicate Stays(plan: Plan, p: Path, content: Content) {
    Leaves(plan.beforeRename, p, content) && Leaves(plan.afterRename, p, content) && Leaves(plan.beforeCompensation, p, content)
  }

  predicate EvidenceStays(plan: Plan) {
    && Stays(plan, plan.profile, plan.profileText) && Stays(plan, plan.proof, plan.proofText)
    && Stays(plan, plan.receipt, plan.receiptText)
  }

  /** What is at `p` now was there, or another writer put it there in this turn. */
  predicate Untouched(turn: Turn<Path>, p: Path, before: Option<Content>, files: Files<Path>) {
    At(files, p) == before || At(files, p) == AfterTurn(turn, p, before)
  }

  /** Profile, proof and approval of the candidate are on disk. */
  predicate FullyEvidenced(plan: Plan, files: Files<Path>) {
    && At(files, plan.profile) == Some(plan.profileText)
    && At(files, plan.proof) == Some(plan.proofText)
    && At(files, plan.receipt) == Some(plan.receiptText)
  }

  /** Each of them that no other writer changes is on disk. */
  predicate Evidenced(plan: Plan, files: Files<Path>) {
    && (Stays(plan, plan.profile, plan.profileText) ==> At(files, plan.profile) == Some(plan.profileText))
    && (Stays(plan, plan.proof, plan.proofText) ==> At(files, plan.proof) == Some(plan.proofText))
    && (Stays(plan, plan.receipt, plan.receiptText) ==> At(files, plan.receipt) == Some(plan.receiptText))
  }

  predicate Backed(plan: Plan, files: Files<Path>) { Selected(plan, files) ==> Evidenced(plan, files) }

  /** The rename that replaces the config of before. */
  predicate IsCommit(plan: Plan, change: Change<Path>) {
    && change.Own? && change.path == plan.config
    && At(change.before, plan.config) == Some(plan.original) && At(change.after, plan.config) == Some(plan.target)
  }

  /** What the commit finds: the profile as reviewed, and of proof and receipt what the other writer left. */
  predicate AtCommit(plan: Plan, files: Files<Path>) {
    && At(files, plan.profile) == Some(plan.profileText)
    && At(files, plan.proof) == AfterTurn(plan.beforeRename, plan.proof, Some(plan.proofText))
    && At(files, plan.receipt) == AfterTurn(plan.beforeRename, plan.receipt, Some(plan.receiptText))
  }

  /** What the operation may replace at a path: what it read there beforehand, or wrote there itself. */
  predicate Ours(plan: Plan, initial: Files<Path>, p: Path, replaced: Option<Content>) {
    if p == plan.config then replaced == Some(plan.original) || replaced == Some(plan.target)
    else if p == plan.proof || p == plan.proofAlias then replaced == At(initial, p) || replaced == Some(plan.proofText)
    else if p == plan.receipt then replaced == At(initial, p) || replaced == Some(plan.receiptText)
    else (p == plan.profile || p == plan.backup) && replaced == At(initial, p)
  }

  /** Each change leaves the config backed, and each own change replaces nothing of another writer. */
  predicate Fair(plan: Plan, initial: Files<Path>, change: Change<Path>) {
    && Backed(plan, change.after)
    && (change.Own? ==> Ours(plan, initial, change.path, At(change.before, change.path)))
    && (IsCommit(plan, change) ==> AtCommit(plan, change.after))
  }

  ghost predicate AllFair(plan: Plan, initial: Files<Path>, log: seq<Change<Path>>, start: nat) {
    forall i :: start <= i < |log| ==> Fair(plan, initial, log[i])
  }

  /** `after` differs from `before` at most at the two proof files. */
  ghost predicate OnlyProofs(plan: Plan, before: Files<Path>, after: Files<Path>) {
    forall p :: p != plan.proof && p != plan.proofAlias ==> At(after, p) == At(before, p)
  }

  /** One file of the operation, what it held before, and what was written to it. */
  datatype Written = Written(path: Path, before: Option<Content>, text: Content)

  predicate IsEvidence(plan: Plan, initial: Files<Path>, w: Written) {
    && w.before == At(initial, w.path)
    && ((w.path == plan.proof && w.text == plan.proofText) || (w.path == plan.proofAlias && w.text == plan.proofText) ||
        (w.path == plan.receipt && w.text == plan.receiptText))
  }

  /** A file other than the config, written while the config does not name the candidate. */
  method WriteOwn(disk: Disk<Path>, plan: Plan, p: Path, content: Content, ghost initial: Files<Path>, ghost start: nat) returns (ok: bool)
    requires !Selected(plan, disk.files) && p != plan.config && Ours(plan, initial, p, At(disk.files, p))
    requires start <= |disk.log| && AllFair(plan, initial, disk.log, start)
    modifies disk
    ensures start <= |disk.log| && AllFair(plan, initial, disk.log, start)
    ensures ok ==> At(disk.files, p) == Some(content)
    ensures disk.reliable ==> ok
    ensures forall q :: q != p ==> At(disk.files, q) == At(old(disk.files), q)
  {
    ghost var log := disk.log;
    ok := disk.WriteExact(p, content);
    assert At(disk.files, plan.config) == At(old(disk.files), plan.config);
    if disk.log != log { assert Fair(plan, initial, disk.log[|log|]); }
  }

  /** While the config does not name the candidate, evidence may be taken back. */
  method Undo(disk: Disk<Path>, plan: Plan, w: Written, ghost initial: Files<Path>, ghost start: nat) returns (ok: bool)
    requires Distinct(plan) && !Selected(plan, disk.files) && IsEvidence(plan, initial, w)
    requires start <= |disk.log| && AllFair(plan, initial, disk.log, start)
    modifies disk
    ensures start <= |disk.log| && AllFair(plan, initial, disk.log, start)
    ensures ok ==> At(disk.files, w.path) == w.before
    ensures forall p :: p != w.path ==> At(disk.files, p) == At(old(disk.files), p)
  {
    ghost var log := disk.log;
    ok := disk.Restore(w.path, w.before, w.text);
    assert disk.files == old(disk.files) || disk.files == With(old(disk.files), w.path, w.before);
    assert At(disk.files, plan.config) == At(old(disk.files), plan.config);
    if disk.log != log { assert Fair(plan, initial, disk.log[|log|]); }
  }

  // ---------------------------------------------------------------------------------------------
  // The supported proof
  // ---------------------------------------------------------------------------------------------

  datatype Saved = Stored | Undone | Inconsistent

  /** Writes the proof and then its alias; tells how far it came. */
  method WriteProofs(disk: Disk<Path>, plan: Plan, ghost initial: Files<Path>, ghost start: nat)
    returns (done: bool, aliasAttempted: bool)
    requires Distinct(plan) && !Selected(plan, disk.files)
    requires At(disk.files, plan.proof) == At(initial, plan.proof) && At(disk.files, plan.proofAlias) == At(initial, plan.proofAlias)
    requires start <= |disk.log| && AllFair(plan, initial, disk.log, start)
    modifies disk
    ensures start <= |disk.log| && AllFair(plan, initial, disk.log, start)
    ensures OnlyProofs(plan, old(disk.files), disk.files)
    ensures done ==> At(disk.files, plan.proof) == Some(plan.proofText) && At(disk.files, plan.proofAlias) == Some(plan.proofText)
    ensures disk.reliable ==> done
    ensures !aliasAttempted ==> At(disk.files, plan.proofAlias) == At(initial, plan.proofAlias)
  {
    done := WriteOwn(disk, plan, plan.proof, plan.proofText, initial, start);
    aliasAttempted := done;
    if !done { return; }
    done := WriteOwn(disk, plan, plan.proofAlias, plan.proofText, initial, start);
    if done {
      var failed := disk.Fails();
      done := !failed;
    }
  }

  /** Both proof files are written, or both are put back; a failure to put one back is reported as such. */
  method SaveSupportedProof(disk: Disk<Path>, plan: Plan, ghost initial: Files<Path>, ghost start: nat) returns (outcome: Saved)
    requires Distinct(plan) && !Selected(plan, disk.files)
    requires At(disk.files, plan.proof) == At(initial, plan.proof) && At(disk.files, plan.proofAlias) == At(initial, plan.proofAlias)
    requires start <= |disk.log| && AllFair(plan, initial, disk.log, start)
    modifies disk
    ensures start <= |disk.log| && AllFair(plan, initial, disk.log, start)
    ensures OnlyProofs(plan, old(disk.files), disk.files)
    ensures outcome.Stored? ==> At(disk.files, plan.proof) == Some(plan.proofText)
    ensures outcome.Stored? ==> At(disk.files, plan.proofAlias) == Some(plan.proofText)
    ensures disk.reliable ==> outcome.Stored?
    ensures outcome.Undone? ==> At(disk.files, plan.proof) == At(initial, plan.proof)
    ensures outcome.Undone? ==> At(disk.files, plan.proofAlias) == At(initial, plan.proofAlias)
  {
    var readable, beforeProof := disk.Read(plan.proof);
    if !readable { return Undone; }
    var beforeAlias;
    readable, beforeAlias := disk.Read(plan.proofAlias);
    if !readable { return Undone; }
    var done, aliasAttempted := WriteProofs(disk, plan, initial, start);
    if done { return Stored; }
    var restored := true;
    if aliasAttempted { restored := Undo(disk, plan, Written(plan.proofAlias, beforeAlias, plan.proofText), initial, start); }
    var alsoRestored := Undo(disk, plan, Written(plan.proof, beforeProof, plan.proofText), initial, start);
    return if restored && alsoRestored then Undone else Inconsistent;
  }

  // ---------------------------------------------------------------------------------------------
  // The config
  // ---------------------------------------------------------------------------------------------

  /** Another writer acts here. */
  method Hook(disk: Disk<Path>, plan: Plan, turn: Turn<Path>, ghost initial: Files<Path>, ghost start: nat)
    requires start <= |disk.log| && AllFair(plan, initial, disk.log, start) && Evidenced(plan, disk.files)
    requires turn == plan.beforeRename || turn == plan.afterRename || turn == plan.beforeCompensation
    modifies disk
    ensures start <= |disk.log| && AllFair(plan, initial, disk.log, start) && Evidenced(plan, disk.files)
    ensures forall p :: At(disk.files, p) == AfterTurn(turn, p, At(old(disk.files), p))
    ensures old(disk.log) <= disk.log
  {
    disk.Meddle(turn);
  }

  /** Replaces one known config text by another, all evidence being on disk. */
  method PutConfig(disk: Disk<Path>, plan: Plan, content: Content, ghost initial: Files<Path>, ghost start: nat) returns (ok: bool)
    requires Distinct(plan) && Evidenced(plan, disk.files)
    requires At(disk.files, plan.config) == Some(plan.original) || At(disk.files, plan.config) == Some(plan.target)
    requires At(disk.files, plan.config) == Some(plan.original) ==> AtCommit(plan, disk.files)
    requires start <= |disk.log| && AllFair(plan, initial, disk.log, start)
    modifies disk
    ensures start <= |disk.log| && AllFair(plan, initial, disk.log, start) && Evidenced(plan, disk.files)
    ensures forall p :: p != plan.config ==> At(disk.files, p) == At(old(disk.files), p)
    ensures At(disk.files, plan.config) == Some(content) || (!ok && disk.files == old(disk.files))
    ensures disk.reliable ==> ok
    ensures |disk.log| == |old(disk.log)| + 1 && disk.log[|old(disk.log)|] == Own(plan.config, old(disk.files), disk.files)
  {
    ok := disk.Put(plan.config, Some(content));
    assert Fair(plan, initial, disk.log[|old(disk.log)|]);
  }

  /** The live config is exactly `text`, and the profile it names is exactly the expected one. */
  method VerifySelection(disk: Disk<Path>, config: Path, text: Content, profile: Path, profileText: Content) returns (ok: bool)
    ensures ok ==> At(disk.files, config) == Some(text) && At(disk.files, profile) == Some(profileText)
    ensures disk.reliable && At(disk.files, config) == Some(text) && At(disk.files, profile) == Some(profileText) ==> ok
  {
    var readable, content := disk.Read(config);
    if !readable || content != Some(text) { return false; }
    readable, content := disk.Read(profile);
    return readable && content == Some(profileText);
  }

  /** Brings the original config back after a commit was attempted, unless another writer has replaced it. */
  method CompensateConfig(disk: Disk<Path>, plan: Plan, ghost initial: Files<Path>, ghost start: nat) returns (ok: bool)
    requires Distinct(plan) && Evidenced(plan, disk.files)
    requires start <= |disk.log| && AllFair(plan, initial, disk.log, start)
    modifies disk
    ensures start <= |disk.log| && AllFair(plan, initial, disk.log, start) && Evidenced(plan, disk.files)
    ensures ok ==> At(disk.files, plan.config) == Some(plan.original) && At(disk.files, plan.active) == Some(plan.activeText)
    ensures forall p :: p != plan.config ==> At(disk.files, p) == AfterTurn(plan.beforeCompensation, p, At(old(disk.files), p))
    ensures disk.reliable && At(disk.files, plan.active) == Some(plan.activeText) ==>
              (ok <==> AfterTurn(plan.beforeCompensation, plan.config, At(old(disk.files), plan.config))
                       in {Some(plan.original), Some(plan.target)})
  {
    Hook(disk, plan, plan.beforeCompensation, initial, start);
    var readable, live := disk.Read(plan.config);
    if !readable { return false; }
    if live != Some(plan.original) {
      if live != Some(plan.target) { return false; }
      var failed := disk.Fails();
      if failed { return false; }
      readable, live := disk.Read(plan.config);
      if !readable || live != Some(plan.target) { return false; }
      var committed := PutConfig(disk, plan, plan.original, initial, start);
      if !committed { return false; }
    }
    ok := VerifySelection(disk, plan.config, plan.original, plan.active, plan.activeText);
  }

  /** Takes the evidence back, last written first. */
  method UndoAll(disk: Disk<Path>, plan: Plan, written: seq<Written>, ghost initial: Files<Path>, ghost start: nat) returns (ok: bool)
    requires Distinct(plan) && !Selected(plan, disk.files)
    requires forall i :: 0 <= i < |written| ==> IsEvidence(plan, initial, written[i])
    requires forall i, k :: 0 <= i < k < |written| ==> written[i].path != written[k].path
    requires start <= |disk.log| && AllFair(plan, initial, disk.log, start)
    modifies disk
    ensures start <= |disk.log| && AllFair(plan, initial, disk.log, start)
    ensures ok ==> forall i :: 0 <= i < |written| ==> At(disk.files, written[i].path) == written[i].before
    ensures forall p :: (forall i :: 0 <= i < |written| ==> p != written[i].path) ==> At(disk.files, p) == At(old(disk.files), p)
  {
    ok := true;
    var n := |written|;
    while n > 0
      invariant 0 <= n <= |written| && !Selected(plan, disk.files)
      invariant start <= |disk.log| && AllFair(plan, initial, disk.log, start)
      invariant ok ==> forall i :: n <= i < |written| ==> At(disk.files, written[i].path) == written[i].before
      invariant forall p :: (forall i :: 0 <= i < |written| ==> p != written[i].path) ==> At(disk.files, p) == At(old(disk.files), p)
    {
      n := n - 1;
      assert At(disk.files, plan.config) == At(old(disk.files), plan.config);
      var one := Undo(disk, plan, written[n], initial, start);
      ok := ok && one;
    }
  }

  // ---------------------------------------------------------------------------------------------
  // The activation
  // ---------------------------------------------------------------------------------------------

  /** `Withdrawn`: failed before the commit was attempted, the evidence is taken back; `Restored`: failed after it. */
  datatype Result = Activated | Refused | Withdrawn | Restored | Unrestored

  /** The candidate profile can be installed, or is. */
  predicate Installable(plan: Plan, files: Files<Path>) {
    At(files, plan.profile).None? || At(files, plan.profile) == Some(plan.profileText)
  }

  /** The files before are as planned, and other writers leave the config and the profile. */
  predicate Undisturbed(plan: Plan, files: Files<Path>) {
    && At(files, plan.config) == Some(plan.original) && At(files, plan.active) == Some(plan.activeText)
    && Installable(plan, files) && SelectionStays(plan)
  }

  predicate SelectionStays(plan: Plan) {
    && Leaves(plan.beforeRename, plan.config, plan.original) && Leaves(plan.beforeRename, plan.profile, plan.profileText)
    && Leaves(plan.afterRename, plan.config, plan.target) && Leaves(plan.afterRename, plan.profile, plan.profileText)
  }

  /** Installs the candidate profile and backs the config up; nothing of another writer is replaced. */
  method Prepare(disk: Disk<Path>, plan: Plan, ghost initial: Files<Path>, ghost start: nat) returns (ok: bool)
    requires Distinct(plan) && !Selected(plan, disk.files) && disk.files == initial && plan.backup !in initial
    requires start <= |disk.log| && AllFair(plan, initial, disk.log, start)
    modifies disk
    ensures start <= |disk.log| && AllFair(plan, initial, disk.log, start)
    ensures forall p :: p != plan.profile && p != plan.backup ==> At(disk.files, p) == At(initial, p)
    ensures ok ==> At(disk.files, plan.profile) == Some(plan.profileText) && At(disk.files, plan.backup) == Some(plan.original)
    ensures (ok ==> Installable(plan, initial)) && (disk.reliable && Installable(plan, initial) ==> ok)
  {
    var readable, installed := disk.Read(plan.profile);
    if !readable { return false; }
    if installed.None? {
      ok := WriteOwn(disk, plan, plan.profile, plan.profileText, initial, start);
      if !ok { return; }
    } else if installed != Some(plan.profileText) {
      return false;
    }
    ok := WriteOwn(disk, plan, plan.backup, plan.original, initial, start);
  }

  /** Proof, alias and receipt; `written` lists what may have to be taken back. */
  method WriteEvidence(disk: Disk<Path>, plan: Plan, ghost initial: Files<Path>, ghost start: nat)
    returns (done: bool, saved: Saved, written: seq<Written>)
    requires Distinct(plan) && !Selected(plan, disk.files)
    requires At(disk.files, plan.proof) == At(initial, plan.proof) && At(disk.files, plan.proofAlias) == At(initial, plan.proofAlias)
    requires At(disk.files, plan.receipt) == At(initial, plan.receipt)
    requires start <= |disk.log| && AllFair(plan, initial, disk.log, start)
    modifies disk
    ensures start <= |disk.log| && AllFair(plan, initial, disk.log, start)
    ensures forall p :: p != plan.proof && p != plan.proofAlias && p != plan.receipt ==> At(disk.files, p) == At(old(disk.files), p)
    ensures done ==> At(disk.files, plan.proof) == Some(plan.proofText) && At(disk.files, plan.receipt) == Some(plan.receiptText)
    ensures done ==> At(disk.files, plan.proofAlias) == Some(plan.proofText) && saved.Stored?
    ensures disk.reliable ==> done
    ensures !saved.Stored? ==> written == [] && At(disk.files, plan.receipt) == At(initial, plan.receipt)
    ensures saved.Undone? ==> At(disk.files, plan.proof) == At(initial, plan.proof)
    ensures saved.Undone? ==> At(disk.files, plan.proofAlias) == At(initial, plan.proofAlias)
    ensures saved.Stored? ==> written == AllWritten(plan, initial)
  {
    var readable, beforeProof := disk.Read(plan.proof);
    if !readable { return false, Undone, []; }
    var beforeAlias;
    readable, beforeAlias := disk.Read(plan.proofAlias);
    if !readable { return false, Undone, []; }
    var beforeReceipt;
    readable, beforeReceipt := disk.Read(plan.receipt);
    if !readable { return false, Undone, []; }
    saved := SaveSupportedProof(disk, plan, initial, start);
    written := [];
    done := false;
    if !saved.Stored? { return; }
    written := [Written(plan.proof, beforeProof, plan.proofText), Written(plan.proofAlias, beforeAlias, plan.proofText)];
    written := written + [Written(plan.receipt, beforeReceipt, plan.receiptText)];
    done := WriteOwn(disk, plan, plan.receipt, plan.receiptText, initial, start);
  }

  function AllWritten(plan: Plan, initial: Files<Path>): seq<Written> {
    [Written(plan.proof, At(initial, plan.proof), plan.proofText),
     Written(plan.proofAlias, At(initial, plan.proofAlias), plan.proofText),
     Written(plan.receipt, At(initial, plan.receipt), plan.receiptText)]
  }

  ghost predicate Committed(plan: Plan, log: seq<Change<Path>>, start: nat) {
    exists i :: start <= i < |log| && IsCommit(plan, log[i])
  }

  /** Everything is in place, and proof and receipt are what other writers left of them. */
  predicate InPlace(plan: Plan, files: Files<Path>) {
    && At(files, plan.config) == Some(plan.target) && At(files, plan.profile) == Some(plan.profileText)
    && At(files, plan.proof) == AfterTurn(plan.afterRename, plan.proof, AfterTurn(plan.beforeRename, plan.proof, Some(plan.proofText)))
    && At(files, plan.receipt) ==
       AfterTurn(plan.afterRename, plan.receipt, AfterTurn(plan.beforeRename, plan.receipt, Some(plan.receiptText)))
  }

  /** From the commit on: the config is renamed into place and read back; on any failure it is brought back. */
  method CommitConfig(disk: Disk<Path>, plan: Plan, ghost initial: Files<Path>, ghost start: nat)
    returns (attempted: bool, done: bool, brought: bool)
    requires Distinct(plan) && FullyEvidenced(plan, disk.files) && At(disk.files, plan.config) == Some(plan.original)
    requires start <= |disk.log| && AllFair(plan, initial, disk.log, start)
    modifies disk
    ensures start <= |disk.log| && AllFair(plan, initial, disk.log, start)
    ensures done ==> attempted && SelectionStays(plan) && InPlace(plan, disk.files) && Committed(plan, disk.log, start)
    ensures disk.reliable && SelectionStays(plan) ==> done
    ensures attempted && !done && brought ==>
              At(disk.files, plan.config) == Some(plan.original) && At(disk.files, plan.active) == Some(plan.activeText)
    ensures !attempted ==> Untouched(plan.beforeRename, plan.config, Some(plan.original), disk.files)
  {
    attempted, done, brought := false, false, false;
    var failed := disk.Fails();
    if failed { return; }
    Hook(disk, plan, plan.beforeRename, initial, start);
    failed := disk.Fails();
    if failed { return; }
    var intact := VerifySelection(disk, plan.config, plan.original, plan.profile, plan.profileText);
    if !intact { return; }
    attempted := true;
    done := PutConfig(disk, plan, plan.target, initial, start);
    ghost var commit := |disk.log| - 1;
    if done {
      assert IsCommit(plan, disk.log[commit]);
      Hook(disk, plan, plan.afterRename, initial, start);
      failed := disk.Fails();
      done := VerifySelection(disk, plan.config, plan.target, plan.profile, plan.profileText);
      done := done && !failed;
    }
    if !done { brought := CompensateConfig(disk, plan, initial, start); }
  }

  /** Before the commit, evidence is kept when the live config names the candidate or cannot be read. */
  method MayUndo(disk: Disk<Path>, plan: Plan) returns (ok: bool)
    ensures ok ==> !Selected(plan, disk.files)
  {
    var readable, live := disk.Read(plan.config);
    ok := readable && live.Some? && !plan.selects(live.value);
  }

  /** Proof and receipt files are as before. */
  predicate EvidenceAsBefore(plan: Plan, initial: Files<Path>, files: Files<Path>) {
    && At(files, plan.proof) == At(initial, plan.proof) && At(files, plan.proofAlias) == At(initial, plan.proofAlias)
    && At(files, plan.receipt) == At(initial, plan.receipt)
  }

  method ActivateReviewedProfile(disk: Disk<Path>, plan: Plan) returns (result: Result)
    requires Distinct(plan) && plan.backup !in disk.files
    modifies disk
    ensures |old(disk.log)| <= |disk.log| && AllFair(plan, old(disk.files), disk.log, |old(disk.log)|)
    ensures result.Activated? ==> Undisturbed(plan, old(disk.files)) && InPlace(plan, disk.files)
    ensures result.Activated? ==> Committed(plan, disk.log, |old(disk.log)|)
    ensures disk.reliable && Undisturbed(plan, old(disk.files)) ==> result.Activated?
    ensures result.Restored? || result.Withdrawn? || result.Refused? ==> EvidenceAsBefore(plan, old(disk.files), disk.files)
    ensures result.Restored? ==> At(disk.files, plan.config) == Some(plan.original) == At(old(disk.files), plan.config)
    ensures result.Restored? && plan.active !in {plan.proof, plan.proofAlias, plan.receipt} ==>
              At(disk.files, plan.active) == Some(plan.activeText)
    ensures result.Withdrawn? ==> !Selected(plan, disk.files)
    ensures result.Withdrawn? ==> Untouched(plan.beforeRename, plan.config, At(old(disk.files), plan.config), disk.files)
    ensures result.Refused? ==> At(disk.files, plan.config) == At(old(disk.files), plan.config)
  {
    ghost var initial, start := disk.files, |disk.log|;
    var intact := VerifySelection(disk, plan.config, plan.original, plan.active, plan.activeText);
    if !intact { return Refused; }
    var prepared := Prepare(disk, plan, initial, start);
    if !prepared { return Refused; }
    var evidenced, saved, written := WriteEvidence(disk, plan, initial, start);
    if !saved.Stored? { return if saved.Undone? then Withdrawn else Unrestored; }
    var attempted, done, brought := false, false, false;
    if evidenced {
      attempted, done, brought := CommitConfig(disk, plan, initial, start);
      if done { return Activated; }
    }
    if !attempted { brought := MayUndo(disk, plan); }
    if !brought { return Unrestored; }
    var undone := UndoAll(disk, plan, written, initial, start);
    if !undone { return Unrestored; }
    assert written[0].path == plan.proof && written[1].path == plan.proofAlias && written[2].path == plan.receipt;
    return if attempted then Restored else Withdrawn;
  }

  /** The crash property, spelled out: whatever the outcome and wherever the process stops, a live config that
      names the candidate has on disk what other writers leave alone of profile, proof and approval; and the
      operation itself replaces only the two known config texts. */
  lemma EveryCrashPointIsBacked(plan: Plan, initial: Files<Path>, log: seq<Change<Path>>, start: nat, i: nat)
    requires AllFair(plan, initial, log, start) && start <= i < |log|
    ensures Selected(plan, log[i].after) ==> Evidenced(plan, log[i].after)
    ensures EvidenceStays(plan) && Selected(plan, log[i].after) ==> FullyEvidenced(plan, log[i].after)
    ensures log[i].Own? && log[i].path == plan.config ==>
              At(log[i].before, plan.config) == Some(plan.original) || At(log[i].before, plan.config) == Some(plan.target)
  {
    assert Fair(plan, initial, log[i]);
  }

  /** The commit reads the profile again but neither proof nor receipt: it is backed if and only if the other
      writer left both. */
  lemma CommitIsBackedExactly(plan: Plan, initial: Files<Path>, log: seq<Change<Path>>, start: nat, i: nat)
    requires AllFair(plan, initial, log, start) && start <= i < |log| && IsCommit(plan, log[i])
    ensures FullyEvidenced(plan, log[i].after) <==>
              Leaves(plan.beforeRename, plan.proof, plan.proofText) && Leaves(plan.beforeRename, plan.receipt, plan.receiptText)
  {
    assert Fair(plan, initial, log[i]);
  }

  /** The whole failing family: without a single fault, the activation succeeds and its commit is not backed. */
  method CommitsUnbacked(disk: Disk<Path>, plan: Plan) returns (result: Result, ghost i: nat)
    requires Distinct(plan) && plan.backup !in disk.files && disk.reliable && Undisturbed(plan, disk.files)
    requires plan.target != plan.original && plan.selects(plan.target)
    requires !Leaves(plan.beforeRename, plan.proof, plan.proofText) || !Leaves(plan.beforeRename, plan.receipt, plan.receiptText)
    modifies disk
    ensures result.Activated? && |old(disk.log)| <= i < |disk.log| && IsCommit(plan, disk.log[i])
    ensures Selected(plan, disk.log[i].after) && !FullyEvidenced(plan, disk.log[i].after)
  {
    result := ActivateReviewedProfile(disk, plan);
    i :| |old(disk.log)| <= i < |disk.log| && IsCommit(plan, disk.log[i]);
    CommitIsBackedExactly(plan, old(disk.files), disk.log, |old(disk.log)|, i);
  }

  /** One of them: another writer removes the proof before the rename, and the activation reports success. */
  method RemovedProofIsNotNoticed() returns (plan: Plan, before: Files<Path>, result: Result, after: Files<Path>)
    ensures plan.beforeRename == map[plan.proof := None] && plan.afterRename == map[] && plan.beforeCompensation == map[]
    ensures !Selected(plan, before) && result.Activated? && Selected(plan, after) && At(after, plan.proof).None?
  {
    plan := Plan(0, 1, 2, 3, 4, 5, 6, 0, 1, 2, 3, 4, 5, c => c == 1, map[3 := None], map[], map[]);
    before := map[0 := 0, 6 := 5];
    var disk := new Disk(before, true);
    result := ActivateReviewedProfile(disk, plan);
    after := disk.files;
  }

  // ---------------------------------------------------------------------------------------------
  // Rolling the config back to an earlier profile
  // ---------------------------------------------------------------------------------------------

  /** `current` is the live config text and `active` the profile it names; `target` is the same config selecting
      the profile of the backup, which has `profileText` at `profile`.  `copy` is the fresh name for a copy of the
      present config. */
  datatype RollbackPlan = RollbackPlan(
    config: Path, profile: Path, copy: Path, active: Path,
    current: Content, target: Content, profileText: Content, activeText: Content,
    beforeRename: Turn<Path>, afterRename: Turn<Path>, beforeCompensation: Turn<Path>)

  /** Own changes replace the live config only where it is the text of before or after; the copy is a new file. */
  predicate OursToRollBack(plan: RollbackPlan, change: Change<Path>) {
    change.Own? ==>
      if change.path == plan.config
      then At(change.before, plan.config) == Some(plan.current) || At(change.before, plan.config) == Some(plan.target)
      else change.path == plan.copy
  }

  ghost predicate AllOurs(plan: RollbackPlan, log: seq<Change<Path>>, start: nat) {
    forall i :: start <= i < |log| ==> OursToRollBack(plan, log[i])
  }

  /** Replaces one of the two known texts of the config. */
  method SwitchConfig(disk: Disk<Path>, plan: RollbackPlan, content: Content, ghost start: nat) returns (ok: bool)
    requires At(disk.files, plan.config) == Some(plan.current) || At(disk.files, plan.config) == Some(plan.target)
    requires start <= |disk.log| && AllOurs(plan, disk.log, start)
    modifies disk
    ensures start <= |disk.log| && AllOurs(plan, disk.log, start)
    ensures At(disk.files, plan.config) == Some(content) || (!ok && disk.files == old(disk.files))
    ensures disk.reliable ==> ok
    ensures forall p :: p != plan.config ==> At(disk.files, p) == At(old(disk.files), p)
  {
    ok := disk.Put(plan.config, Some(content));
  }

  /** After an attempted commit: the text of before comes back, unless another writer has replaced it. */
  method CompensateRollback(disk: Disk<Path>, plan: RollbackPlan, ghost start: nat) returns (ok: bool)
    requires start <= |disk.log| && AllOurs(plan, disk.log, start)
    modifies disk
    ensures start <= |disk.log| && AllOurs(plan, disk.log, start)
    ensures ok ==> At(disk.files, plan.config) == Some(plan.current) && At(disk.files, plan.active) == Some(plan.activeText)
    ensures forall p :: p != plan.config ==> At(disk.files, p) == AfterTurn(plan.beforeCompensation, p, At(old(disk.files), p))
  {
    disk.Meddle(plan.beforeCompensation);
    var readable, live := disk.Read(plan.config);
    if !readable { return false; }
    if live != Some(plan.current) {
      if live != Some(plan.target) { return false; }
      var failed := disk.Fails();
      if failed { return false; }
      readable, live := disk.Read(plan.config);
      if !readable || live != Some(plan.target) { return false; }
      ok := SwitchConfig(disk, plan, plan.current, start);
      if !ok { return; }
    }
    ok := VerifySelection(disk, plan.config, plan.current, plan.active, plan.activeText);
  }

  /** Other writers leave the config and the profile to return to. */
  predicate ReturnStays(plan: RollbackPlan) {
    && Leaves(plan.beforeRename, plan.config, plan.current) && Leaves(plan.beforeRename, plan.profile, plan.profileText)
    && Leaves(plan.afterRename, plan.config, plan.target) && Leaves(plan.afterRename, plan.profile, plan.profileText)
  }

  /** The commit: only over the unchanged config and with the profile of the backup intact. */
  method CommitRollback(disk: Disk<Path>, plan: RollbackPlan, ghost start: nat) returns (attempted: bool, done: bool)
    requires start <= |disk.log| && AllOurs(plan, disk.log, start) && plan.profile != plan.config
    requires At(disk.files, plan.config) == Some(plan.current) && At(disk.files, plan.profile) == Some(plan.profileText)
    modifies disk
    ensures start <= |disk.log| && AllOurs(plan, disk.log, start)
    ensures done ==> attempted && At(disk.files, plan.config) == Some(plan.target)
    ensures done ==> At(disk.files, plan.profile) == Some(plan.profileText) && ReturnStays(plan)
    ensures disk.reliable && ReturnStays(plan) ==> done
    ensures done ==> forall p :: p != plan.config ==>
              At(disk.files, p) == AfterTurn(plan.afterRename, p, AfterTurn(plan.beforeRename, p, At(old(disk.files), p)))
    ensures !attempted ==> Untouched(plan.beforeRename, plan.config, Some(plan.current), disk.files)
  {
    attempted, done := false, false;
    var leased, profile := disk.Read(plan.profile);
    var failed := disk.Fails();
    if !leased || failed || profile != Some(plan.profileText) { return; }
    disk.Meddle(plan.beforeRename);
    failed := disk.Fails();
    if failed { return; }
    var intact := VerifySelection(disk, plan.config, plan.current, plan.profile, plan.profileText);
    if !intact { return; }
    attempted := true;
    done := SwitchConfig(disk, plan, plan.target, start);
    if !done { return; }
    disk.Meddle(plan.afterRename);
    failed := disk.Fails();
    done := VerifySelection(disk, plan.config, plan.target, plan.profile, plan.profileText);
    done := done && !failed;
  }

  /** On success the config selects the profile of the backup, which is there, and the present config is kept as a
      copy; a failure after the commit that reports a restore has the present config and its profile back; before
      it, the config is never touched.  Nothing of another writer is ever replaced. */
  method RollbackProfileConfig(disk: Disk<Path>, plan: RollbackPlan) returns (result: Result)
    requires plan.config != plan.copy && plan.config != plan.profile && plan.copy != plan.profile && plan.copy !in disk.files
    modifies disk
    ensures |old(disk.log)| <= |disk.log| && AllOurs(plan, disk.log, |old(disk.log)|)
    ensures result.Activated? ==>
              && At(disk.files, plan.config) == Some(plan.target) && At(disk.files, plan.profile) == Some(plan.profileText)
              && At(disk.files, plan.copy) ==
                 AfterTurn(plan.afterRename, plan.copy, AfterTurn(plan.beforeRename, plan.copy, Some(plan.current)))
              && CanReturn(plan, old(disk.files))
    ensures disk.reliable && CanReturn(plan, old(disk.files)) ==> result.Activated?
    ensures result.Restored? ==> At(disk.files, plan.config) == Some(plan.current) == At(old(disk.files), plan.config)
    ensures result.Restored? ==> At(disk.files, plan.active) == Some(plan.activeText)
    ensures result.Withdrawn? ==> Untouched(plan.beforeRename, plan.config, At(old(disk.files), plan.config), disk.files)
    ensures result.Refused? ==> At(disk.files, plan.config) == At(old(disk.files), plan.config)
  {
    ghost var start := |disk.log|;
    var intact := VerifySelection(disk, plan.config, plan.current, plan.profile, plan.profileText);
    if !intact { return Refused; }
    var copied := disk.WriteExact(plan.copy, plan.current);
    if !copied { return Refused; }
    var attempted, done := CommitRollback(disk, plan, start);
    if done { return Activated; }
    if !attempted { return Withdrawn; }
    var brought := CompensateRollback(disk, plan, start);
    return if brought then Restored else Unrestored;
  }

  predicate CanReturn(plan: RollbackPlan, files: Files<Path>) {
    At(files, plan.config) == Some(plan.current) && At(files, plan.profile) == Some(plan.profileText) && ReturnStays(plan)
  }
}
