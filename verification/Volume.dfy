/** Files that may fail a limited number of times.

    A failed rename has no effect; a failed atomic write has it or not; a failed copy or removal may leave a
    partial file behind.  Removing what is not there cannot fail. */
module Volumes {
  import opened Tables

  class Faults {
    var left: nat

    constructor (left: nat)
      ensures this.left == left
    {
      this.left := left;
    }

    /** A step that changes no file: a directory sync, a permission change, a hook. */
    method Strikes() returns (hit: bool)
      modifies this
      ensures if hit then old(left) > 0 && left == old(left) - 1 else left == old(left)
    {
      hit := *;
      if left == 0 { hit := false; }
      if hit { left := left - 1; }
    }
  }

  /** A lock file.  Whoever finds one refuses to start; it is removed by hand. */
  class Lock {
    const faults: Faults
    /** Closing and removing the file will not fail. */
    const releasable: bool
    var present: bool

    constructor (faults: Faults, releasable: bool, present: bool)
      ensures this.faults == faults && this.releasable == releasable && this.present == present
    {
      this.faults, this.releasable, this.present := faults, releasable, present;
    }

    method Acquire() returns (ok: bool)
      requires faults.left <= 1
      modifies this`present, faults
      ensures ok ==> !old(present) && present && faults.left == old(faults.left)
      ensures !ok ==> present == old(present)
      ensures !ok ==> faults.left == if old(present) then old(faults.left) else old(faults.left) - 1
    {
      if present { return false; }
      var hit := faults.Strikes();
      ok := !hit;
      if ok { present := true; }
    }

    /** A failure throws after what was done under the lock, and may leave the lock behind. */
    method Release() returns (ok: bool)
      modifies this`present
      ensures ok == releasable && (ok ==> !present)
    {
      ok := releasable;
      var effective: bool := *;
      if ok || effective { present := false; }
    }
  }

  function At<P, C>(files: map<P, C>, p: P): Option<C> { if p in files then Some(files[p]) else None }

  class Volume<P(==, !new), C(==)> {
    const faults: Faults
    const partial: C
    var files: map<P, C>

    constructor (faults: Faults, partial: C, files: map<P, C>)
      ensures this.faults == faults && this.partial == partial && this.files == files
    {
      this.faults, this.partial, this.files := faults, partial, files;
    }

    /** What every operation says about faults and about files other than its own. */
    twostate predicate Only(ok: bool, paths: set<P>)
      reads this, faults
    {
      && (if ok then faults.left == old(faults.left) else old(faults.left) > 0 && faults.left == old(faults.left) - 1)
      && forall r :: r !in paths ==> At(files, r) == At(old(files), r)
    }

    method Rename(p: P, q: P) returns (ok: bool)
      requires At(files, p).Some? && p != q
      modifies this`files, faults
      ensures Only(ok, {p, q})
      ensures ok ==> At(files, p).None? && At(files, q) == At(old(files), p)
      ensures !ok ==> files == old(files)
    {
      var hit := faults.Strikes();
      ok := !hit;
      if ok { files := (files - {p})[q := files[p]]; }
    }

    method Copy(p: P, q: P) returns (ok: bool)
      requires At(files, p).Some? && p != q
      modifies this`files, faults
      ensures Only(ok, {q})
      ensures ok ==> At(files, q) == At(old(files), p)
    {
      ok := Write(q, files[p]);
    }

    method Write(p: P, content: C) returns (ok: bool)
      modifies this`files, faults
      ensures Only(ok, {p})
      ensures ok ==> At(files, p) == Some(content)
    {
      var hit := faults.Strikes();
      ok := !hit;
      if ok {
        files := files[p := content];
      } else {
        var touched: bool := *;
        if touched { files := files[p := partial]; }
      }
    }

    method AtomicWrite(p: P, content: C) returns (ok: bool)
      modifies this`files, faults
      ensures Only(ok, {p})
      ensures ok ==> At(files, p) == Some(content)
      ensures !ok ==> At(files, p) == Some(content) || files == old(files)
    {
      var hit := faults.Strikes();
      ok := !hit;
      var effective: bool := *;
      if ok || effective { files := files[p := content]; }
    }

    method Remove(p: P) returns (ok: bool)
      modifies this`files, faults
      ensures Only(ok, {p})
      ensures ok ==> At(files, p).None?
      ensures p !in old(files) ==> ok && files == old(files)
    {
      if p !in files { return true; }
      var hit := faults.Strikes();
      ok := !hit;
      if ok {
        files := files - {p};
      } else {
        var touched: bool := *;
        if touched { files := files[p := partial]; }
      }
    }
  }
}
