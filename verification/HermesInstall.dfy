/** Installing the Hermes bridge, rolling it back, and taking the rollback back.

    The three operations hold the install lock, so nothing else writes.  The guarantees are those of one fault:
    a second one may hit the compensation itself.  A lock that cannot be released is such a fault; it comes after
    the operation has taken effect, and is reported as its failure. */
module HermesInstall {
  import opened Tables
  import opened Volumes

  /** The plugin tree and config in use, and the files of operation number `op`. */
  datatype Place =
    | Plugin | Config
    | PluginBackup(op: nat) | ConfigBackup(op: nat) | Receipt(op: nat)
    | PluginStaging(op: nat) | ConfigStaging(op: nat)

  datatype Stage = Prepared | Installed | RolledBack

  /** `op` names the backups of the installation, `preRollback` those of the rollback. */
  datatype InstallReceipt = InstallReceipt(
    stage: Stage, tree: nat, priorPlugin: bool, configBefore: nat, configAfter: nat, preRollback: Option<nat>)

  datatype Content = Tree(tree: nat) | Yaml(text: nat) | Record(receipt: InstallReceipt) | Partial

  type Home = Volume<Place, Content>

  /** A tree or a config that is whole. */
  predicate WellFormed(files: map<Place, Content>) {
    && (Config in files ==> files[Config].Yaml?)
    && (Plugin in files ==> files[Plugin].Tree?)
  }

  predicate Unused(files: map<Place, Content>, op: nat) {
    At(files, PluginBackup(op)).None? && At(files, ConfigBackup(op)).None? && At(files, Receipt(op)).None? &&
    At(files, PluginStaging(op)).None? && At(files, ConfigStaging(op)).None?
  }

  /** Files that operation `op` does not name. */
  predicate Elsewhere(p: Place, op: nat) {
    !p.Plugin? && !p.Config? && p.op != op
  }

  // ---------------------------------------------------------------------------------------------
  // Swapping plugin and config
  // ---------------------------------------------------------------------------------------------

  /** Files a swap of operation `op` over `backup` does not name. */
  predicate Outside(p: Place, backup: Place, op: nat) {
    p != Plugin && p != Config && p != backup && p != PluginStaging(op) && p != ConfigStaging(op)
  }

  /** How far a swap came when it failed. */
  datatype Progress = Progress(oldMoved: bool, newMoved: bool)

  /** The forward half all three operations share: the live plugin moves to `backup`, the staged one takes its
      place, the caller's hook runs, then the staged config replaces the live one. */
  method Swap(v: Home, backup: Place, op: nat, moveOld: bool, moveNew: bool, hookThrows: bool) returns (ok: bool, reached: Progress)
    requires backup.PluginBackup? && At(v.files, backup).None?
    requires moveOld <==> At(v.files, Plugin).Some?
    requires moveNew ==> At(v.files, PluginStaging(op)).Some?
    requires At(v.files, ConfigStaging(op)).Some?
    modifies v`files, v.faults
    ensures ok ==> v.faults.left == old(v.faults.left) && !hookThrows
    ensures !ok ==> v.faults.left == old(v.faults.left) - 1 || (hookThrows && v.faults.left == old(v.faults.left))
    ensures !ok && v.faults.left == old(v.faults.left) ==>
              reached == Progress(moveOld, moveNew) && At(v.files, ConfigStaging(op)) == At(old(v.files), ConfigStaging(op)) &&
              At(v.files, Config) == At(old(v.files), Config)
    ensures reached.oldMoved ==> moveOld && At(v.files, backup) == At(old(v.files), Plugin)
    ensures reached.newMoved ==> moveNew && At(v.files, Plugin) == At(old(v.files), PluginStaging(op))
    ensures reached.newMoved ==> (reached.oldMoved <==> moveOld)
    ensures !reached.oldMoved ==> At(v.files, backup).None?
    ensures !reached.newMoved ==> At(v.files, Plugin) == if reached.oldMoved then None else At(old(v.files), Plugin)
    ensures ok ==> reached == Progress(moveOld, moveNew) && At(v.files, Config) == At(old(v.files), ConfigStaging(op))
    ensures ok ==> At(v.files, ConfigStaging(op)).None?
    ensures reached.newMoved ==> At(v.files, PluginStaging(op)).None?
    ensures forall p :: Outside(p, backup, op) ==> At(v.files, p) == At(old(v.files), p)
  {
    reached := Progress(false, false);
    if moveOld {
      ok := v.Rename(Plugin, backup);
      if !ok { return; }
      reached := reached.(oldMoved := true);
    }
    if moveNew {
      ok := v.Rename(PluginStaging(op), Plugin);
      if !ok { return; }
      reached := reached.(newMoved := true);
    }
    var hit := v.faults.Strikes();
    if hit || hookThrows { return false, reached; }
    ok := v.Rename(ConfigStaging(op), Config);
    if !ok { return; }
    hit := v.faults.Strikes();
    if hit { return false, reached; }
  }

  /** The backward half: with no fault left, plugin and config are as they were.  A copy that fails is passed over
      in silence; then what is staged, if anything, takes the place of the config. */
  method SwapBack(v: Home, backup: Place, configBackup: Place, op: nat, reached: Progress, copied: bool) returns (ok: bool)
    requires v.faults.left == 0 && backup.PluginBackup? && configBackup.ConfigBackup?
    requires reached.oldMoved ==> At(v.files, backup).Some?
    requires !reached.newMoved && reached.oldMoved ==> At(v.files, Plugin).None?
    requires At(v.files, configBackup).Some?
    modifies v`files, v.faults
    ensures ok && v.faults.left == 0
    ensures At(v.files, Plugin) == if reached.oldMoved then At(old(v.files), backup)
                                   else if reached.newMoved then None else At(old(v.files), Plugin)
    ensures At(v.files, Config) == if copied then At(old(v.files), configBackup)
                                   else if ConfigStaging(op) in old(v.files) then At(old(v.files), ConfigStaging(op))
                                   else At(old(v.files), Config)
    ensures forall p :: p != Plugin && p != Config && p != backup && p != ConfigStaging(op) ==>
              At(v.files, p) == At(old(v.files), p)
  {
    if reached.newMoved {
      ok := v.Remove(Plugin);
    }
    if reached.oldMoved {
      ok := v.Rename(backup, Plugin);
    }
    if copied { ok := v.Copy(configBackup, ConfigStaging(op)); }
    if ConfigStaging(op) in v.files { ok := v.Rename(ConfigStaging(op), Config); }
    ok := true;
  }

  /** Plugin and config in use. */
  ghost predicate SameInUse(files: map<Place, Content>, before: map<Place, Content>) {
    At(files, Plugin) == At(before, Plugin) && At(files, Config) == At(before, Config)
  }

  // ---------------------------------------------------------------------------------------------
  // Install
  // ---------------------------------------------------------------------------------------------

  /** What an installation leaves for its rollback. */
  predicate IsInstalled(files: map<Place, Content>, op: nat, r: InstallReceipt) {
    && r.stage.Installed? && r.preRollback.None?
    && At(files, Receipt(op)) == Some(Record(r))
    && At(files, Plugin) == Some(Tree(r.tree)) && At(files, Config) == Some(Yaml(r.configAfter))
    && At(files, ConfigBackup(op)) == Some(Yaml(r.configBefore))
    && (r.priorPlugin <==> At(files, PluginBackup(op)).Some?)
  }

  /** Copies, stages and records before anything in use is touched. */
  method PrepareInstall(v: Home, tree: nat, receipt: InstallReceipt, op: nat) returns (ok: bool)
    requires WellFormed(v.files) && Unused(v.files, op) && At(v.files, Config) == Some(Yaml(receipt.configBefore))
    modifies v`files, v.faults
    ensures if ok then v.faults.left == old(v.faults.left) else v.faults.left == old(v.faults.left) - 1
    ensures ok ==> At(v.files, ConfigBackup(op)) == Some(Yaml(receipt.configBefore)) && At(v.files, PluginBackup(op)).None?
    ensures ok ==> At(v.files, PluginStaging(op)) == Some(Tree(tree)) && At(v.files, ConfigStaging(op)) == Some(Yaml(receipt.configAfter))
    ensures SameInUse(v.files, old(v.files))
    ensures forall p :: Elsewhere(p, op) ==> At(v.files, p) == At(old(v.files), p)
  {
    ok := v.Copy(Config, ConfigBackup(op));
    if !ok { return; }
    ok := v.Write(PluginStaging(op), Tree(tree));
    if !ok { return; }
    ok := v.Write(ConfigStaging(op), Yaml(receipt.configAfter));
    if !ok { return; }
    ok := v.Write(Receipt(op), Record(receipt));
  }

  /** The swap and then the final receipt. */
  method Commit(v: Home, backup: Place, op: nat, moveOld: bool, moveNew: bool, hookThrows: bool,
                receiptPlace: Place, receipt: InstallReceipt)
    returns (ok: bool, reached: Progress)
    requires backup.PluginBackup? && At(v.files, backup).None? && receiptPlace.Receipt?
    requires moveOld <==> At(v.files, Plugin).Some?
    requires moveNew ==> At(v.files, PluginStaging(op)).Some?
    requires At(v.files, ConfigStaging(op)).Some?
    modifies v`files, v.faults
    ensures ok ==> v.faults.left == old(v.faults.left) && !hookThrows
    ensures !ok ==> v.faults.left == old(v.faults.left) - 1 || (hookThrows && v.faults.left == old(v.faults.left))
    ensures !ok && v.faults.left == old(v.faults.left) ==>
              reached == Progress(moveOld, moveNew) && At(v.files, ConfigStaging(op)) == At(old(v.files), ConfigStaging(op)) &&
              At(v.files, Config) == At(old(v.files), Config)
    ensures reached.oldMoved ==> moveOld && At(v.files, backup) == At(old(v.files), Plugin)
    ensures reached.newMoved ==> moveNew && At(v.files, Plugin) == At(old(v.files), PluginStaging(op))
    ensures reached.newMoved ==> (reached.oldMoved <==> moveOld)
    ensures !reached.oldMoved ==> At(v.files, backup).None?
    ensures !reached.newMoved ==> At(v.files, Plugin) == if reached.oldMoved then None else At(old(v.files), Plugin)
    ensures ok ==> reached == Progress(moveOld, moveNew) && At(v.files, Config) == At(old(v.files), ConfigStaging(op))
    ensures ok ==> At(v.files, receiptPlace) == Some(Record(receipt))
    ensures forall p :: Outside(p, backup, op) && p != receiptPlace ==> At(v.files, p) == At(old(v.files), p)
  {
    ok, reached := Swap(v, backup, op, moveOld, moveNew, hookThrows);
    if !ok { return; }
    var hit := v.faults.Strikes();
    if hit { return false, reached; }
    ok := v.AtomicWrite(receiptPlace, Record(receipt));
  }

  /** Puts plugin and config back and removes what the failed installation left. */
  method UndoInstall(v: Home, op: nat, reached: Progress, copied: bool)
    requires v.faults.left == 0
    requires reached.oldMoved ==> At(v.files, PluginBackup(op)).Some?
    requires !reached.newMoved && reached.oldMoved ==> At(v.files, Plugin).None?
    requires At(v.files, ConfigBackup(op)).Some?
    modifies v`files, v.faults
    ensures At(v.files, Plugin) == if reached.oldMoved then At(old(v.files), PluginBackup(op))
                                   else if reached.newMoved then None else At(old(v.files), Plugin)
    ensures At(v.files, Config) == if copied then At(old(v.files), ConfigBackup(op))
                                   else if ConfigStaging(op) in old(v.files) then At(old(v.files), ConfigStaging(op))
                                   else At(old(v.files), Config)
    ensures At(v.files, ConfigBackup(op)).None? && At(v.files, Receipt(op)).None?
    ensures forall p :: Elsewhere(p, op) ==> At(v.files, p) == At(old(v.files), p)
  {
    var ok := SwapBack(v, PluginBackup(op), ConfigBackup(op), op, reached, copied);
    ok := v.Remove(ConfigBackup(op));
    ok := v.Remove(Receipt(op));
    ok := v.Remove(PluginStaging(op));
  }

  /** All or nothing under one fault: the new bridge with its receipt and backups, or plugin and config as they
      were.  `enable` is the config edit; it refuses a config it cannot parse. */
  method InstallBridge(v: Home, tree: nat, enable: nat -> Option<nat>, op: nat) returns (result: Option<InstallReceipt>)
    requires WellFormed(v.files) && Unused(v.files, op) && v.faults.left <= 1
    modifies v`files, v.faults
    ensures result.Some? ==>
              && IsInstalled(v.files, op, result.value) && result.value.tree == tree
              && At(old(v.files), Config) == Some(Yaml(result.value.configBefore))
              && enable(result.value.configBefore) == Some(result.value.configAfter)
              && At(v.files, PluginBackup(op)) == At(old(v.files), Plugin)
    ensures result.Some? ==> v.faults.left == old(v.faults.left)
    ensures result.None? ==> SameInUse(v.files, old(v.files))
    ensures forall p :: Elsewhere(p, op) ==> At(v.files, p) == At(old(v.files), p)
  {
    if Config !in v.files { return None; }
    var before := ConfigText(v);
    if enable(before).None? { return None; }
    var prior := Plugin in v.files;
    var receipt := InstallReceipt(Prepared, tree, prior, before, enable(before).value, None);
    var ok := PrepareInstall(v, tree, receipt, op);
    if !ok { return None; }
    var reached;
    ok, reached := Commit(v, PluginBackup(op), op, prior, true, false, Receipt(op), receipt.(stage := Installed));
    if ok { return Some(receipt.(stage := Installed)); }
    UndoInstall(v, op, reached, true);
    return None;
  }

  /** With two faults it is neither all nor nothing: when the hook throws and then the copy of the old config fails,
      the staged new config is renamed into place beside the old plugin, and nothing is left to restore it from. */
  method InstallUnderTwoFaults(v: Home, tree: nat, enable: nat -> Option<nat>, op: nat)
    requires WellFormed(v.files) && Unused(v.files, op) && v.faults.left == 0
    requires Config in v.files && enable(v.files[Config].text).Some?
    modifies v`files, v.faults
    ensures At(v.files, Config) == Some(Yaml(enable(old(v.files)[Config].text).value))
    ensures At(v.files, Plugin) == At(old(v.files), Plugin)
    ensures At(v.files, ConfigBackup(op)).None? && At(v.files, Receipt(op)).None?
  {
    var before := ConfigText(v);
    var prior := Plugin in v.files;
    var receipt := InstallReceipt(Prepared, tree, prior, before, enable(before).value, None);
    var ok := PrepareInstall(v, tree, receipt, op);
    var reached;
    ok, reached := Commit(v, PluginBackup(op), op, prior, true, true, Receipt(op), receipt.(stage := Installed));
    UndoInstall(v, op, reached, false);
  }

  /** The operation with its lock.  `done` is what took effect, `reported` what the caller gets to know: they differ
      exactly when the lock cannot be released. */
  method InstallUnderLock(lock: Lock, v: Home, tree: nat, enable: nat -> Option<nat>, op: nat)
    returns (reported: Option<InstallReceipt>, ghost done: Option<InstallReceipt>)
    requires lock.faults == v.faults && (lock.releasable || v.faults.left == 0)
    requires WellFormed(v.files) && Unused(v.files, op) && v.faults.left <= 1
    modifies lock, v`files, v.faults
    ensures reported.Some? ==> reported == done && !lock.present
    ensures done.Some? ==> (reported.Some? <==> lock.releasable) && v.faults.left == old(v.faults.left)
    ensures done.Some? ==>
              && !old(lock.present) && IsInstalled(v.files, op, done.value) && done.value.tree == tree
              && At(old(v.files), Config) == Some(Yaml(done.value.configBefore))
              && enable(done.value.configBefore) == Some(done.value.configAfter)
              && At(v.files, PluginBackup(op)) == At(old(v.files), Plugin)
    ensures done.None? ==> SameInUse(v.files, old(v.files))
    ensures forall p :: Elsewhere(p, op) ==> At(v.files, p) == At(old(v.files), p)
  {
    var ok := lock.Acquire();
    if !ok { return None, None; }
    reported := InstallBridge(v, tree, enable, op);
    done := reported;
    ok := lock.Release();
    if !ok { reported := None; }
  }

  method ConfigText(v: Home) returns (text: nat)
    requires WellFormed(v.files) && Config in v.files
    ensures At(v.files, Config) == Some(Yaml(text))
  {
    text := v.files[Config].text;
  }

  // ---------------------------------------------------------------------------------------------
  // Rollback
  // ---------------------------------------------------------------------------------------------

  /** The installation `op` is still in place, untouched, with all that its rollback needs. */
  predicate MayRollBack(files: map<Place, Content>, op: nat) {
    && Receipt(op) in files && files[Receipt(op)].Record?
    && IsInstalled(files, op, files[Receipt(op)].receipt)
  }

  /** What a rollback leaves for its own reversal. */
  predicate IsRolledBack(files: map<Place, Content>, op: nat, r: InstallReceipt) {
    && r.stage.RolledBack? && r.preRollback.Some?
    && At(files, Receipt(op)) == Some(Record(r))
    && At(files, Config) == Some(Yaml(r.configBefore))
    && At(files, PluginBackup(r.preRollback.value)) == Some(Tree(r.tree))
    && At(files, ConfigBackup(r.preRollback.value)) == Some(Yaml(r.configAfter))
    && At(files, Plugin) == At(files, PluginBackup(op)) && (r.priorPlugin <==> At(files, Plugin).Some?)
  }

  method PrepareRollback(v: Home, op: nat, m: nat, prior: bool) returns (ok: bool)
    requires Unused(v.files, m) && op != m && Config in v.files && ConfigBackup(op) in v.files
    requires prior <==> PluginBackup(op) in v.files
    modifies v`files, v.faults
    ensures if ok then v.faults.left == old(v.faults.left) else v.faults.left == old(v.faults.left) - 1
    ensures ok ==> At(v.files, ConfigBackup(m)) == At(old(v.files), Config) && At(v.files, PluginBackup(m)).None?
    ensures ok ==> At(v.files, PluginStaging(m)) == if prior then At(old(v.files), PluginBackup(op)) else None
    ensures ok ==> At(v.files, ConfigStaging(m)) == At(old(v.files), ConfigBackup(op))
    ensures SameInUse(v.files, old(v.files))
    ensures forall p :: Elsewhere(p, m) ==> At(v.files, p) == At(old(v.files), p)
  {
    ok := v.Copy(Config, ConfigBackup(m));
    if !ok { return; }
    if prior {
      ok := v.Copy(PluginBackup(op), PluginStaging(m));
      if !ok { return; }
    }
    ok := v.Copy(ConfigBackup(op), ConfigStaging(m));
  }

  /** Rolls installation `op` back, under its own number `m`.  All or nothing under one fault; a changed bridge,
      config or backup is refused. */
  method RollBackBridge(v: Home, op: nat, m: nat) returns (result: Option<InstallReceipt>)
    requires Unused(v.files, m) && op != m && v.faults.left <= 1
    modifies v`files, v.faults
    ensures result.Some? ==>
              && MayRollBack(old(v.files), op) && IsRolledBack(v.files, op, result.value)
              && result.value.preRollback == Some(m)
              && result.value.(stage := Installed, preRollback := None) == old(v.files)[Receipt(op)].receipt
              && v.faults.left == old(v.faults.left)
    ensures result.None? ==>
              SameInUse(v.files, old(v.files)) && At(v.files, Receipt(op)) == At(old(v.files), Receipt(op))
    ensures result.None? && MayRollBack(old(v.files), op) ==> v.faults.left == old(v.faults.left) - 1
    ensures result.None? && !MayRollBack(old(v.files), op) ==> v.faults.left == old(v.faults.left)
    ensures forall p :: Elsewhere(p, m) && p != Receipt(op) ==> At(v.files, p) == At(old(v.files), p)
  {
    if !MayRollBack(v.files, op) { return None; }
    var receipt := v.files[Receipt(op)].receipt;
    var ok := PrepareRollback(v, op, m, receipt.priorPlugin);
    if !ok { return None; }
    var updated := receipt.(stage := RolledBack, preRollback := Some(m));
    var reached;
    ok, reached := Commit(v, PluginBackup(m), m, true, receipt.priorPlugin, false, Receipt(op), updated);
    if ok { return Some(updated); }
    UndoSwap(v, PluginBackup(m), ConfigBackup(m), m, reached, Receipt(op), receipt);
    return None;
  }

  /** The operation with its lock; see `InstallUnderLock`. */
  method RollBackUnderLock(lock: Lock, v: Home, op: nat, m: nat)
    returns (reported: Option<InstallReceipt>, ghost done: Option<InstallReceipt>)
    requires lock.faults == v.faults && (lock.releasable || v.faults.left == 0)
    requires Unused(v.files, m) && op != m && v.faults.left <= 1
    modifies lock, v`files, v.faults
    ensures reported.Some? ==> reported == done && !lock.present
    ensures done.Some? ==> (reported.Some? <==> lock.releasable) && v.faults.left == old(v.faults.left)
    ensures done.Some? ==>
              && !old(lock.present) && MayRollBack(old(v.files), op) && IsRolledBack(v.files, op, done.value)
              && done.value.preRollback == Some(m)
              && done.value.(stage := Installed, preRollback := None) == old(v.files)[Receipt(op)].receipt
    ensures done.None? ==>
              SameInUse(v.files, old(v.files)) && At(v.files, Receipt(op)) == At(old(v.files), Receipt(op))
    ensures done.None? && MayRollBack(old(v.files), op) && !old(lock.present) ==> v.faults.left < old(v.faults.left)
    ensures v.faults.left <= old(v.faults.left)
    ensures forall p :: Elsewhere(p, m) && p != Receipt(op) ==> At(v.files, p) == At(old(v.files), p)
  {
    var ok := lock.Acquire();
    if !ok { return None, None; }
    reported := RollBackBridge(v, op, m);
    done := reported;
    ok := lock.Release();
    if !ok { reported := None; }
  }

  /** Puts plugin, config and receipt back. */
  method UndoSwap(v: Home, backup: Place, configBackup: Place, op: nat, reached: Progress, receiptPlace: Place, receipt: InstallReceipt)
    requires v.faults.left == 0 && backup.PluginBackup? && configBackup.ConfigBackup? && receiptPlace.Receipt?
    requires reached.oldMoved ==> At(v.files, backup).Some?
    requires !reached.newMoved && reached.oldMoved ==> At(v.files, Plugin).None?
    requires At(v.files, configBackup).Some?
    modifies v`files, v.faults
    ensures At(v.files, Plugin) == if reached.oldMoved then At(old(v.files), backup)
                                   else if reached.newMoved then None else At(old(v.files), Plugin)
    ensures At(v.files, Config) == At(old(v.files), configBackup)
    ensures At(v.files, receiptPlace) == Some(Record(receipt)) && v.faults.left == 0
    ensures forall p :: Outside(p, backup, op) && p != receiptPlace ==> At(v.files, p) == At(old(v.files), p)
  {
    var ok := SwapBack(v, backup, configBackup, op, reached, true);
    ok := v.AtomicWrite(receiptPlace, Record(receipt));
    ok := v.Remove(PluginStaging(op));
  }

  // ---------------------------------------------------------------------------------------------
  // Taking a rollback back
  // ---------------------------------------------------------------------------------------------

  /** The rollback of installation `op` is still in place, untouched, with its copies of the installed state. */
  predicate MayCompensate(files: map<Place, Content>, op: nat) {
    && Receipt(op) in files && files[Receipt(op)].Record?
    && IsRolledBack(files, op, files[Receipt(op)].receipt)
  }

  method PrepareCompensation(v: Home, m: nat, k: nat) returns (ok: bool)
    requires Unused(v.files, k) && m != k && At(v.files, Config).Some?
    requires At(v.files, PluginBackup(m)).Some? && At(v.files, ConfigBackup(m)).Some?
    modifies v`files, v.faults
    ensures if ok then v.faults.left == old(v.faults.left) else v.faults.left == old(v.faults.left) - 1
    ensures ok ==> At(v.files, ConfigBackup(k)) == At(old(v.files), Config) && At(v.files, PluginBackup(k)).None?
    ensures ok ==> At(v.files, PluginStaging(k)) == At(old(v.files), PluginBackup(m))
    ensures ok ==> At(v.files, ConfigStaging(k)) == At(old(v.files), ConfigBackup(m))
    ensures SameInUse(v.files, old(v.files))
    ensures forall p :: Elsewhere(p, k) ==> At(v.files, p) == At(old(v.files), p)
  {
    ok := v.Copy(Config, ConfigBackup(k));
    if !ok { return; }
    ok := v.Copy(PluginBackup(m), PluginStaging(k));
    if !ok { return; }
    ok := v.Copy(ConfigBackup(m), ConfigStaging(k));
  }

  /** Reverses the rollback of installation `op`, under its own number `k`; all or nothing under one fault. */
  method CompensateRollback(v: Home, op: nat, k: nat) returns (result: Option<InstallReceipt>)
    requires Unused(v.files, k) && v.faults.left <= 1 && op != k
    requires MayCompensate(v.files, op) ==> v.files[Receipt(op)].receipt.preRollback != Some(k)
    modifies v`files, v.faults
    ensures result.Some? ==>
              && MayCompensate(old(v.files), op)
              && result.value == old(v.files)[Receipt(op)].receipt.(stage := Installed, preRollback := None)
    ensures result.Some? ==> At(v.files, Receipt(op)) == Some(Record(result.value)) && At(v.files, Plugin) == Some(Tree(result.value.tree))
    ensures result.Some? ==> At(v.files, Config) == Some(Yaml(result.value.configAfter)) && v.faults.left == old(v.faults.left)
    ensures result.None? ==> SameInUse(v.files, old(v.files)) && At(v.files, Receipt(op)) == At(old(v.files), Receipt(op))
    ensures result.None? && MayCompensate(old(v.files), op) ==> v.faults.left == old(v.faults.left) - 1
    ensures result.None? && !MayCompensate(old(v.files), op) ==> v.faults.left == old(v.faults.left)
    ensures forall p :: Elsewhere(p, k) && p != Receipt(op) ==> At(v.files, p) == At(old(v.files), p)
  {
    if !MayCompensate(v.files, op) { return None; }
    var receipt := v.files[Receipt(op)].receipt;
    var m := receipt.preRollback.value;
    var ok := PrepareCompensation(v, m, k);
    if !ok { return None; }
    var restored := receipt.(stage := Installed, preRollback := None);
    var reached;
    ok, reached := Commit(v, PluginBackup(k), k, receipt.priorPlugin, true, false, Receipt(op), restored);
    if ok { return Some(restored); }
    UndoSwap(v, PluginBackup(k), ConfigBackup(k), k, reached, Receipt(op), receipt);
    return None;
  }

  /** The operation with its lock; see `InstallUnderLock`. */
  method CompensateUnderLock(lock: Lock, v: Home, op: nat, k: nat)
    returns (reported: Option<InstallReceipt>, ghost done: Option<InstallReceipt>)
    requires lock.faults == v.faults && (lock.releasable || v.faults.left == 0)
    requires Unused(v.files, k) && v.faults.left <= 1 && op != k
    requires MayCompensate(v.files, op) ==> v.files[Receipt(op)].receipt.preRollback != Some(k)
    modifies lock, v`files, v.faults
    ensures reported.Some? ==> reported == done && !lock.present
    ensures done.Some? ==> (reported.Some? <==> lock.releasable) && v.faults.left == old(v.faults.left)
    ensures done.Some? ==>
              && !old(lock.present) && MayCompensate(old(v.files), op)
              && done.value == old(v.files)[Receipt(op)].receipt.(stage := Installed, preRollback := None)
    ensures done.Some? ==> At(v.files, Receipt(op)) == Some(Record(done.value)) && At(v.files, Plugin) == Some(Tree(done.value.tree))
    ensures done.Some? ==> At(v.files, Config) == Some(Yaml(done.value.configAfter))
    ensures done.None? ==> SameInUse(v.files, old(v.files)) && At(v.files, Receipt(op)) == At(old(v.files), Receipt(op))
    ensures done.None? && MayCompensate(old(v.files), op) && !old(lock.present) ==> v.faults.left < old(v.faults.left)
    ensures v.faults.left <= old(v.faults.left)
    ensures forall p :: Elsewhere(p, k) && p != Receipt(op) ==> At(v.files, p) == At(old(v.files), p)
  {
    var ok := lock.Acquire();
    if !ok { return None, None; }
    reported := CompensateRollback(v, op, k);
    done := reported;
    ok := lock.Release();
    if !ok { reported := None; }
  }

  /** Installing, rolling back and taking the rollback back: each step that succeeds meets the state of two
      steps before, byte for byte; each that fails changed nothing in use. */
  method RoundTrip(v: Home, tree: nat, enable: nat -> Option<nat>, op: nat, m: nat, k: nat)
    returns (installed: bool, rolledBack: bool, compensated: bool)
    requires WellFormed(v.files) && Unused(v.files, op) && Unused(v.files, m) && Unused(v.files, k)
    requires op != m && m != k && op != k && v.faults.left <= 1
    modifies v`files, v.faults
    ensures !installed || (rolledBack && !compensated) ==> SameInUse(v.files, old(v.files))
    ensures installed && (!rolledBack || compensated) ==>
              && At(v.files, Plugin) == Some(Tree(tree))
              && Config in old(v.files) && enable(old(v.files)[Config].text).Some?
              && At(v.files, Config) == Some(Yaml(enable(old(v.files)[Config].text).value))
    ensures old(v.faults.left) == 0 && installed ==> rolledBack && compensated
  {
    installed, rolledBack, compensated := false, false, false;
    var r := InstallBridge(v, tree, enable, op);
    installed := r.Some?;
    if !installed { return; }
    var s := RollBackBridge(v, op, m);
    rolledBack := s.Some?;
    if !rolledBack { return; }
    var t := CompensateRollback(v, op, k);
    compensated := t.Some?;
  }
}
