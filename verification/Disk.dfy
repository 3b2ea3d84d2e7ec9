/** Files as a map from paths to contents, with a log of every change.

    A write or removal takes effect as a whole or not at all; when it reports a failure, either may be the
    case.  Every content that was on the disk after a change is a point at which the process may crash. */
module Disks {
  import opened Tables

  type Content = nat
  type Files<P> = map<P, Content>

  function At<P>(files: Files<P>, p: P): Option<Content> { if p in files then Some(files[p]) else None }

  function With<P>(files: Files<P>, p: P, content: Option<Content>): Files<P> {
    if content.Some? then files[p := content.value] else files - {p}
  }

  function Renamed<P>(files: Files<P>, p: P, q: P): Files<P>
    requires p in files
  {
    (files - {p})[q := files[p]]
  }

  /** What another writer does in one turn: it replaces or removes some files, whatever they hold. */
  type Turn<P> = map<P, Option<Content>>

  function AfterTurn<P>(turn: Turn<P>, p: P, content: Option<Content>): Option<Content> {
    if p in turn then turn[p] else content
  }

  /** The turn leaves this content of `p`. */
  predicate Leaves<P>(turn: Turn<P>, p: P, content: Content) { AfterTurn(turn, p, Some(content)) == Some(content) }

  /** One change of the disk: by this operation at `path`, or by another writer. */
  datatype Change<P> = Own(path: P, before: Files<P>, after: Files<P>) | Foreign(before: Files<P>, after: Files<P>)

  class Disk<P(==)> {
    /** No step fails. */
    const reliable: bool
    var files: Files<P>
    ghost var log: seq<Change<P>>

    constructor (files: Files<P>, reliable: bool)
      ensures this.files == files && this.reliable == reliable && log == []
    {
      this.files, this.reliable, log := files, reliable, [];
    }

    /** Guards, reads, directory syncs and permission checks may fail at any time. */
    method Fails() returns (failed: bool)
      ensures reliable ==> !failed
    {
      failed := *;
      failed := failed && !reliable;
    }

    method Read(p: P) returns (ok: bool, content: Option<Content>)
      ensures ok ==> content == At(files, p)
      ensures reliable ==> ok
    {
      var failed := Fails();
      ok := !failed;
      content := if p in files then Some(files[p]) else None;
    }

    /** Writes `content`, or removes the file. */
    method Put(p: P, content: Option<Content>) returns (ok: bool)
      modifies this
      ensures files == old(files) || files == With(old(files), p, content)
      ensures ok ==> files == With(old(files), p, content)
      ensures reliable ==> ok
      ensures log == old(log) + [Own(p, old(files), files)]
    {
      var failed := Fails();
      var effective: bool := *;
      effective := effective || reliable;
      ghost var before := files;
      if effective { files := With(files, p, content); }
      log := log + [Own(p, before, files)];
      ok := effective && !failed;
    }

    /** Another writer acts. */
    method Meddle(turn: Turn<P>)
      modifies this
      ensures forall p :: At(files, p) == AfterTurn(turn, p, At(old(files), p))
      ensures log == old(log) + [Foreign(old(files), files)]
    {
      ghost var before := files;
      files := (files - turn.Keys) + (map p | p in turn && turn[p].Some? :: turn[p].value);
      log := log + [Foreign(before, files)];
    }

    /** Write and read back. */
    method WriteExact(p: P, content: Content) returns (ok: bool)
      modifies this
      ensures ok ==> At(files, p) == Some(content)
      ensures reliable ==> ok
      ensures files == old(files) || files == old(files)[p := content]
      ensures (log == old(log) && files == old(files)) || log == old(log) + [Own(p, old(files), files)]
    {
      var failed := Fails();
      if failed { return false; }
      ok := Put(p, Some(content));
      if !ok { return; }
      var readable, back := Read(p);
      ok := readable && back == Some(content);
    }

    /** Puts back what a file held before this operation wrote `written`; anything else is not ours to replace. */
    method Restore(p: P, before: Option<Content>, written: Content) returns (ok: bool)
      modifies this
      ensures ok ==> At(files, p) == before
      ensures reliable && (At(old(files), p) == before || At(old(files), p) == Some(written)) ==> ok
      ensures files == old(files) || files == With(old(files), p, before)
      ensures (log == old(log) && files == old(files)) ||
              (log == old(log) + [Own(p, old(files), files)] && At(old(files), p) == Some(written))
    {
      var readable, current := Read(p);
      if !readable { return false; }
      if current == before { return true; }
      if current != Some(written) { return false; }
      var failed := Fails();
      if failed { return false; }
      ok := Put(p, before);
      if !ok { return; }
      var back;
      readable, back := Read(p);
      ok := readable && back == before;
    }

    /** Renames a file to a path that is not occupied. */
    method Move(p: P, q: P) returns (ok: bool)
      requires p in files && q !in files
      modifies this
      ensures files == old(files) || files == Renamed(old(files), p, q)
      ensures ok ==> files == Renamed(old(files), p, q)
      ensures reliable ==> ok
      ensures log == old(log) + [Own(p, old(files), files)]
    {
      var failed := Fails();
      var effective: bool := *;
      effective := effective || reliable;
      ghost var before := files;
      if effective { files := Renamed(files, p, q); }
      log := log + [Own(p, before, files)];
      ok := effective && !failed;
    }
  }
}
