/** Rolling a deployment back: service, Hermes bridge, current pointer and receipt, as a saga with compensation. */
module Deployment {
  import opened Tables
  import opened Volumes
  import H = HermesInstall

  /** The service manager's view of the daemon. */
  class Service {
    const faults: Faults
    var definition: Option<nat>
    var loaded: Option<nat>
    var active: bool

    constructor (faults: Faults, definition: Option<nat>, active: bool)
      ensures this.faults == faults && this.definition == loaded == definition && this.active == active
    {
      this.faults, this.definition, this.loaded, this.active := faults, definition, definition, active;
    }

    method Stop() returns (ok: bool)
      modifies this`active, faults
      ensures if ok then faults.left == old(faults.left) && !active else faults.left == old(faults.left) - 1
      ensures active ==> old(active)
    {
      var hit := faults.Strikes();
      ok := !hit;
      var effective: bool := *;
      if ok || effective { active := false; }
    }

    /** Writes the definition, or removes it. */
    method PutDefinition(content: Option<nat>) returns (ok: bool)
      modifies this`definition, faults
      ensures if ok then faults.left == old(faults.left) && definition == content else faults.left == old(faults.left) - 1
      ensures definition == content || definition == old(definition)
    {
      var hit := faults.Strikes();
      ok := !hit;
      var effective: bool := *;
      if ok || effective { definition := content; }
    }

    method Reload() returns (ok: bool)
      modifies this`loaded, faults
      ensures if ok then faults.left == old(faults.left) && loaded == definition else faults.left == old(faults.left) - 1
    {
      var hit := faults.Strikes();
      ok := !hit;
      var effective: bool := *;
      if ok || effective { loaded := definition; }
    }

    method Start() returns (ok: bool)
      modifies this`active, faults
      ensures if ok then faults.left == old(faults.left) && active else faults.left == old(faults.left) - 1
    {
      var hit := faults.Strikes();
      ok := !hit;
      var effective: bool := *;
      if ok || effective { active := true; }
    }
  }

  datatype Place = CurrentPointer | ReceiptFile
  datatype Stage = Deployed | RolledBack
  datatype DeploymentReceipt = DeploymentReceipt(
    stage: Stage, pointer: nat, previousPointer: Option<nat>, bridge: Option<nat>,
    definition: Option<nat>, previousDefinition: Option<nat>, previousActive: bool)
  datatype Content = Pointer(id: nat) | Record(receipt: DeploymentReceipt) | Partial

  type Root = Volume<Place, Content>

  /** Brings the service back to `definition` and, if managed, to `wasActive`. */
  method RestoreService(s: Service, definition: Option<nat>, wasActive: bool, manage: bool) returns (ok: bool)
    modifies s, s.faults
    ensures old(s.faults.left) == 0 ==> ok && s.faults.left == 0
    ensures ok ==> s.definition == definition && s.faults.left == old(s.faults.left)
    ensures !ok ==> s.faults.left < old(s.faults.left)
    ensures ok && manage ==> s.loaded == definition && (s.active <==> wasActive && definition.Some?)
    ensures !manage ==> s.active == old(s.active) && s.loaded == old(s.loaded)
  {
    if manage {
      ok := s.Stop();
      if !ok { return; }
    }
    ok := s.PutDefinition(definition);
    if !ok { return; }
    if manage {
      ok := s.Reload();
      if !ok { return; }
      if wasActive && definition.Some? { ok := s.Start(); }
    }
  }

  /** How far the rollback came. */
  datatype Touched = Touched(service: bool, bridge: bool, pointer: bool, receipt: bool)

  /** The deployment as the receipt describes it, and nothing half done. */
  predicate IsDeployed(files: map<Place, Content>, r: DeploymentReceipt) {
    r.stage.Deployed? && At(files, CurrentPointer) == Some(Pointer(r.pointer)) && At(files, ReceiptFile) == Some(Record(r))
  }

  /** The bridge is still as it was installed and its install lock is free; otherwise its rollback refuses. */
  predicate BridgeAgrees(files: map<H.Place, H.Content>, locked: bool, r: DeploymentReceipt) {
    r.bridge.Some? ==> H.MayRollBack(files, r.bridge.value) && !locked
  }

  /** The rollback of the bridge takes effect, but its lock cannot be released and it is taken for a failure. */
  predicate Jams(files: map<H.Place, H.Content>, locked: bool, releasable: bool, r: DeploymentReceipt) {
    r.bridge.Some? && !releasable && BridgeAgrees(files, locked, r)
  }

  /** Stops the service if it must, and rolls the bridge back. */
  method StopAndRollBridge(lock: Lock, h: H.Home, s: Service, r: DeploymentReceipt, manage: bool, m: nat)
    returns (ok: bool, touched: Touched)
    requires lock.faults == h.faults == s.faults && h.faults.left <= if lock.releasable then 1 else 0
    requires r.bridge.Some? ==> H.Unused(h.files, m) && r.bridge.value != m
    modifies lock, h`files, s`active, h.faults
    ensures h.faults.left <= old(h.faults.left) && (ok ==> h.faults.left == old(h.faults.left))
    ensures !ok && BridgeAgrees(old(h.files), old(lock.present), r) ==>
              h.faults.left == 0 && (0 < old(h.faults.left) || Jams(old(h.files), old(lock.present), lock.releasable, r))
    ensures ok ==> BridgeAgrees(old(h.files), old(lock.present), r) && (manage ==> !s.active)
    ensures !touched.pointer && !touched.receipt && (touched.bridge ==> r.bridge.Some? && !lock.present && lock.releasable)
    ensures ok ==> touched.bridge == r.bridge.Some? && !Jams(old(h.files), old(lock.present), lock.releasable, r)
    ensures touched.bridge || Jams(old(h.files), old(lock.present), lock.releasable, r) ==>
              r.bridge.Some? && H.MayCompensate(h.files, r.bridge.value) && BridgeRecord(old(h.files), h.files, r.bridge.value, m)
    ensures touched.bridge ==> BridgeAgrees(old(h.files), old(lock.present), r)
    ensures touched.bridge ==> forall p :: H.Elsewhere(p, m) && p != H.Receipt(r.bridge.value) ==> At(h.files, p) == At(old(h.files), p)
    ensures !touched.bridge && !Jams(old(h.files), old(lock.present), lock.releasable, r) ==>
              BridgeUntouched(old(h.files), h.files, r)
    ensures !touched.service ==> s.active == old(s.active)
    ensures !manage ==> !touched.service
    ensures s.active ==> old(s.active)
  {
    touched := Touched(false, false, false, false);
    ok := true;
    if manage && s.active {
      touched := touched.(service := true);
      ok := s.Stop();
      if !ok { return; }
    }
    if r.bridge.Some? {
      var reported;
      ghost var done;
      reported, done := H.RollBackUnderLock(lock, h, r.bridge.value, m);
      if reported.None? { return false, touched; }
      touched := touched.(bridge := true);
      var hit := h.faults.Strikes();
      ok := !hit;
    }
  }

  /** The rolled-back bridge remembers the installed state it replaced. */
  predicate BridgeRecord(before: map<H.Place, H.Content>, after: map<H.Place, H.Content>, op: nat, m: nat) {
    && H.MayRollBack(before, op) && H.MayCompensate(after, op)
    && after[H.Receipt(op)].receipt.preRollback == Some(m)
    && after[H.Receipt(op)].receipt.(stage := H.Installed, preRollback := None) == before[H.Receipt(op)].receipt
  }

  /** Plugin, config and install receipt as they were. */
  predicate BridgeUntouched(before: map<H.Place, H.Content>, after: map<H.Place, H.Content>, r: DeploymentReceipt) {
    && At(after, H.Plugin) == At(before, H.Plugin) && At(after, H.Config) == At(before, H.Config)
    && (r.bridge.Some? ==> At(after, H.Receipt(r.bridge.value)) == At(before, H.Receipt(r.bridge.value)))
  }

  /** Service definition, pointer and receipt, in this order. */
  method PutService(s: Service, r: DeploymentReceipt, hasController: bool, manage: bool) returns (ok: bool, touched: bool)
    requires manage ==> hasController
    modifies s, s.faults
    ensures if ok then s.faults.left == old(s.faults.left) else s.faults.left == old(s.faults.left) - 1
    ensures touched == hasController
    ensures !touched ==> s.definition == old(s.definition) && s.loaded == old(s.loaded) && s.active == old(s.active)
    ensures !manage ==> s.active == old(s.active) && s.loaded == old(s.loaded)
    ensures ok && hasController ==> s.definition == r.previousDefinition
    ensures ok && manage ==> s.loaded == r.previousDefinition
    ensures ok && manage && !old(s.active) ==> (s.active <==> r.previousActive && r.previousDefinition.Some?)
  {
    touched := hasController;
    ok := true;
    if hasController {
      ok := s.PutDefinition(r.previousDefinition);
      if !ok { return; }
      if manage {
        ok := s.Reload();
        if !ok { return; }
        if r.previousActive && r.previousDefinition.Some? {
          ok := s.Start();
          if !ok { return; }
        }
      }
    }
    var hit := s.faults.Strikes();
    ok := !hit;
  }

  method PutPointer(d: Root, r: DeploymentReceipt) returns (ok: bool, touched: Touched)
    requires IsDeployed(d.files, r)
    modifies d`files, d.faults
    ensures if ok then d.faults.left == old(d.faults.left) else d.faults.left == old(d.faults.left) - 1
    ensures touched.pointer && !touched.service && !touched.bridge
    ensures !touched.receipt ==> At(d.files, ReceiptFile) == At(old(d.files), ReceiptFile)
    ensures ok ==> At(d.files, CurrentPointer) == (if r.previousPointer.Some? then Some(Pointer(r.previousPointer.value)) else None)
    ensures ok ==> At(d.files, ReceiptFile) == Some(Record(r.(stage := RolledBack)))
  {
    touched := Touched(false, false, true, false);
    if r.previousPointer.Some? {
      ok := d.AtomicWrite(CurrentPointer, Pointer(r.previousPointer.value));
    } else {
      ok := d.Remove(CurrentPointer);
    }
    if !ok { return; }
    var hit := d.faults.Strikes();
    if hit { return false, touched; }
    touched := touched.(receipt := true);
    hit := d.faults.Strikes();
    if hit { return false, touched; }
    ok := d.AtomicWrite(ReceiptFile, Record(r.(stage := RolledBack)));
  }

  /** The second half of the forward steps; `before` is what the first half touched. */
  method PutDeployment(d: Root, s: Service, r: DeploymentReceipt, hasController: bool, manage: bool, before: Touched)
    returns (ok: bool, touched: Touched)
    requires d.faults == s.faults && IsDeployed(d.files, r) && (manage ==> hasController) && (before.service ==> manage)
    modifies d`files, s, d.faults
    ensures if ok then d.faults.left == old(d.faults.left) else d.faults.left == old(d.faults.left) - 1
    ensures touched.bridge == before.bridge && (before.service ==> touched.service)
    ensures !touched.service ==> s.definition == old(s.definition) && s.loaded == old(s.loaded) && s.active == old(s.active)
    ensures !manage ==> s.active == old(s.active) && s.loaded == old(s.loaded)
    ensures !touched.pointer ==> d.files == old(d.files)
    ensures !touched.receipt ==> At(d.files, ReceiptFile) == At(old(d.files), ReceiptFile)
    ensures ok ==> At(d.files, CurrentPointer) == (if r.previousPointer.Some? then Some(Pointer(r.previousPointer.value)) else None)
    ensures ok ==> At(d.files, ReceiptFile) == Some(Record(r.(stage := RolledBack)))
    ensures ok && hasController ==> s.definition == r.previousDefinition
    ensures ok && manage ==> s.loaded == r.previousDefinition
    ensures ok && manage && !old(s.active) ==> (s.active <==> r.previousActive && r.previousDefinition.Some?)
  {
    var service;
    touched := before.(pointer := false, receipt := false);
    ok, service := PutService(s, r, hasController, manage);
    touched := touched.(service := touched.service || service);
    if !ok { return; }
    var more;
    ok, more := PutPointer(d, r);
    touched := touched.(pointer := true, receipt := more.receipt);
  }

  /** Receipt, pointer, bridge, service: what was touched is put back, in this order. */
  ghost predicate BridgeBack(mid: map<H.Place, H.Content>, after: map<H.Place, H.Content>, op: nat)
    requires H.MayCompensate(mid, op)
  {
    var receipt := mid[H.Receipt(op)].receipt.(stage := H.Installed, preRollback := None);
    && At(after, H.Plugin) == Some(H.Tree(receipt.tree)) && At(after, H.Config) == Some(H.Yaml(receipt.configAfter))
    && At(after, H.Receipt(op)) == Some(H.Record(receipt))
  }

  predicate CanBringBack(files: map<H.Place, H.Content>, r: DeploymentReceipt, k: nat) {
    && r.bridge.Some? && H.Unused(files, k) && r.bridge.value != k && H.MayCompensate(files, r.bridge.value)
    && files[H.Receipt(r.bridge.value)].receipt.preRollback != Some(k)
  }

  lemma StillUnused(before: map<H.Place, H.Content>, mid: map<H.Place, H.Content>, r: DeploymentReceipt, m: nat, k: nat)
    requires r.bridge.Some? && BridgeRecord(before, mid, r.bridge.value, m) && H.Unused(before, k)
    requires m != k && r.bridge.value != m && r.bridge.value != k
    requires forall p :: H.Elsewhere(p, m) && p != H.Receipt(r.bridge.value) ==> At(mid, p) == At(before, p)
    ensures CanBringBack(mid, r, k)
  {
    assert H.Elsewhere(H.PluginBackup(k), m) && H.Elsewhere(H.ConfigBackup(k), m) && H.Elsewhere(H.Receipt(k), m);
    assert H.Elsewhere(H.PluginStaging(k), m) && H.Elsewhere(H.ConfigStaging(k), m);
  }

  lemma SameIsUntouched(files: map<H.Place, H.Content>, r: DeploymentReceipt)
    ensures BridgeUntouched(files, files, r)
  {
  }

  /** Rolled back and brought back is untouched. */
  lemma BackIsUntouched(before: map<H.Place, H.Content>, mid: map<H.Place, H.Content>, after: map<H.Place, H.Content>,
                        r: DeploymentReceipt, m: nat)
    requires r.bridge.Some? && BridgeRecord(before, mid, r.bridge.value, m) && BridgeBack(mid, after, r.bridge.value)
    ensures BridgeUntouched(before, after, r)
  {
  }

  method Compensate(lock: Lock, h: H.Home, d: Root, s: Service, r: DeploymentReceipt, touched: Touched, manage: bool,
                    definition: Option<nat>, wasActive: bool, k: nat) returns (ok: bool)
    requires lock.faults == h.faults == d.faults == s.faults && h.faults.left <= if lock.releasable then 1 else 0
    requires touched.bridge ==> !lock.present && lock.releasable
    requires touched.bridge ==> CanBringBack(h.files, r, k)
    requires touched.bridge || touched.pointer || touched.receipt ==> h.faults.left == 0
    modifies lock, h`files, d`files, s, h.faults
    ensures old(h.faults.left) == 0 ==> ok && h.faults.left == 0
    ensures !ok ==> h.faults.left < old(h.faults.left)
    ensures At(d.files, ReceiptFile) == if touched.receipt then Some(Record(r)) else At(old(d.files), ReceiptFile)
    ensures At(d.files, CurrentPointer) == if touched.pointer then Some(Pointer(r.pointer)) else At(old(d.files), CurrentPointer)
    ensures !touched.bridge ==> h.files == old(h.files)
    ensures touched.bridge ==> BridgeBack(old(h.files), h.files, r.bridge.value)
    ensures !touched.service ==> s.definition == old(s.definition) && s.loaded == old(s.loaded) && s.active == old(s.active)
    ensures ok ==> h.faults.left == old(h.faults.left)
    ensures ok && touched.service ==> s.definition == definition
    ensures ok && touched.service && manage ==> s.loaded == definition && (s.active <==> wasActive && definition.Some?)
    ensures !manage ==> s.loaded == old(s.loaded) && s.active == old(s.active)
  {
    ok := true;
    var step;
    if touched.receipt {
      step := d.AtomicWrite(ReceiptFile, Record(r));
      ok := ok && step;
    }
    if touched.pointer {
      step := d.AtomicWrite(CurrentPointer, Pointer(r.pointer));
      ok := ok && step;
    }
    if touched.bridge {
      var back;
      ghost var done;
      back, done := H.CompensateUnderLock(lock, h, r.bridge.value, k);
      ok := ok && back.Some?;
    }
    if touched.service {
      step := RestoreService(s, definition, wasActive, manage);
      ok := ok && step;
    }
  }

  /** `Restored` and `Incomplete` are the two failures the caller is told apart. */
  datatype Outcome = Refused | Reverted | Restored | Incomplete

  predicate MayRevert(files: map<Place, Content>, r: DeploymentReceipt, manage: bool, active: bool, definition: Option<nat>) {
    IsDeployed(files, r) && (manage || !active) && definition == r.definition
  }

  /** Rolls a deployment back.  Under one fault it either reaches the previous deployment, or leaves pointer and
      receipt exactly as they were, and bridge and service too, with two exceptions.  An install lock that cannot be
      released leaves the bridge rolled back, and is reported as a complete restore.  A refused rollback of a changed or locked bridge, followed by a fault in the compensation, can leave the service
      to the operator, and is reported as such. */
  method RollbackDeployment(lock: Lock, h: H.Home, d: Root, s: Service, r: DeploymentReceipt, hasController: bool,
                            manage: bool, m: nat, k: nat) returns (outcome: Outcome)
    requires lock.faults == h.faults == d.faults == s.faults && h.faults.left <= if lock.releasable then 1 else 0
    requires manage ==> hasController
    requires r.bridge.Some? ==> H.Unused(h.files, m) && H.Unused(h.files, k) && m != k
    requires r.bridge.Some? ==> r.bridge.value != m && r.bridge.value != k
    requires s.loaded == s.definition && (s.active ==> s.definition.Some?)
    modifies lock, h`files, d`files, s, h.faults
    ensures outcome.Refused? <==> !MayRevert(old(d.files), r, manage, old(s.active), old(s.definition))
    ensures outcome.Reverted? ==>
              && BridgeAgrees(old(h.files), old(lock.present), r)
              && At(d.files, CurrentPointer) == (if r.previousPointer.Some? then Some(Pointer(r.previousPointer.value)) else None)
              && At(d.files, ReceiptFile) == Some(Record(r.(stage := RolledBack)))
              && (hasController ==> s.definition == r.previousDefinition)
              && (manage ==> s.loaded == r.previousDefinition)
              && (manage ==> (s.active <==> r.previousActive && r.previousDefinition.Some?))
              && (!manage ==> !s.active && s.loaded == old(s.loaded))
              && (r.bridge.Some? ==> BridgeRecord(old(h.files), h.files, r.bridge.value, m))
    ensures old(h.faults.left) == 0 ==>
              (outcome.Reverted? <==> MayRevert(old(d.files), r, manage, old(s.active), old(s.definition)) &&
                                      BridgeAgrees(old(h.files), old(lock.present), r) && (r.bridge.Some? ==> lock.releasable))
    ensures !outcome.Reverted? ==>
              && At(d.files, CurrentPointer) == At(old(d.files), CurrentPointer)
              && At(d.files, ReceiptFile) == At(old(d.files), ReceiptFile)
              && (outcome.Refused? || !Jams(old(h.files), old(lock.present), lock.releasable, r) ==>
                    BridgeUntouched(old(h.files), h.files, r))
    ensures outcome.Restored? || outcome.Refused? ==>
              s.definition == old(s.definition) && s.loaded == old(s.loaded) && s.active == old(s.active)
    ensures outcome.Incomplete? ==>
              !BridgeAgrees(old(h.files), old(lock.present), r) && h.faults.left == 0 < old(h.faults.left)
    ensures !outcome.Refused? && Jams(old(h.files), old(lock.present), lock.releasable, r) ==>
              outcome.Restored? && BridgeRecord(old(h.files), h.files, r.bridge.value, m)
    ensures h.faults.left <= old(h.faults.left) && (outcome.Reverted? ==> h.faults.left == old(h.faults.left))
  {
    hide H.MayRollBack, H.MayCompensate, BridgeRecord, BridgeUntouched, BridgeBack, H.Unused, CanBringBack;
    ghost var before := h.files;
    SameIsUntouched(before, r);
    if !IsDeployed(d.files, r) || (!manage && s.active) || s.definition != r.definition { return Refused; }
    var definition, wasActive := s.definition, s.active;
    var ok, touched;
    ok, touched := StopAndRollBridge(lock, h, s, r, manage, m);
    ghost var mid := h.files;
    if touched.bridge { StillUnused(before, mid, r, m, k); }
    if ok {
      ok, touched := PutDeployment(d, s, r, hasController, manage, touched);
      if ok { return Reverted; }
    }
    ok := Compensate(lock, h, d, s, r, touched, manage, definition, wasActive, k);
    if touched.bridge { BackIsUntouched(before, mid, h.files, r, m); }
    return if ok then Restored else Incomplete;
  }

  /** After such a jam the rollback of the deployment cannot be repeated: its bridge no longer agrees.  What is left
      is to take the rollback of the bridge back. */
  lemma JammedRefuses(before: map<H.Place, H.Content>, after: map<H.Place, H.Content>, locked: bool, r: DeploymentReceipt, m: nat)
    requires r.bridge.Some? && BridgeRecord(before, after, r.bridge.value, m)
    ensures !BridgeAgrees(after, locked, r) && H.MayCompensate(after, r.bridge.value)
  {
  }

  /** The operation with the deployment lock: a failure to release it comes after all is done, and is reported as a
      failure of the rollback. */
  method RollbackUnderLock(outer: Lock, lock: Lock, h: H.Home, d: Root, s: Service, r: DeploymentReceipt, hasController: bool,
                           manage: bool, m: nat, k: nat) returns (reported: bool, ghost outcome: Outcome)
    requires outer != lock && outer.faults == lock.faults == h.faults == d.faults == s.faults
    requires h.faults.left <= if outer.releasable && lock.releasable then 1 else 0
    requires manage ==> hasController
    requires r.bridge.Some? ==> H.Unused(h.files, m) && H.Unused(h.files, k) && m != k
    requires r.bridge.Some? ==> r.bridge.value != m && r.bridge.value != k
    requires s.loaded == s.definition && (s.active ==> s.definition.Some?)
    modifies outer, lock, h`files, d`files, s, h.faults
    ensures reported ==> outcome.Reverted? && !outer.present
    ensures outcome.Reverted? ==> (reported <==> outer.releasable)
    ensures outcome.Reverted? ==>
              && !old(outer.present)
              && At(d.files, CurrentPointer) == (if r.previousPointer.Some? then Some(Pointer(r.previousPointer.value)) else None)
              && At(d.files, ReceiptFile) == Some(Record(r.(stage := RolledBack)))
    ensures !outcome.Reverted? ==>
              At(d.files, CurrentPointer) == At(old(d.files), CurrentPointer) && At(d.files, ReceiptFile) == At(old(d.files), ReceiptFile)
    ensures old(h.faults.left) == 0 && !old(outer.present) ==>
              (outcome.Reverted? <==> MayRevert(old(d.files), r, manage, old(s.active), old(s.definition)) &&
                                      BridgeAgrees(old(h.files), old(lock.present), r) && (r.bridge.Some? ==> lock.releasable))
  {
    var ok := outer.Acquire();
    if !ok { return false, Refused; }
    var result := RollbackDeployment(lock, h, d, s, r, hasController, manage, m, k);
    outcome := result;
    ok := outer.Release();
    reported := ok && result.Reverted?;
  }
}
