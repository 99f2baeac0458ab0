/** fusefs.Engine: the operations of the mount, run on one overlay store in place.  Every method
    does what EngineSpec says, so the runs of EngineRuns are runs of this class. */
module Engine {
  import opened Wrappers
  import opened Paths
  import opened OverlayState
  import opened MergedView
  import opened OverlayStore
  import opened Readdir
  import R = ReconcileSpec
  import Spec = EngineSpec

  class FileEngine {
    const overlay: Store
    var base: Base

    constructor (overlay: Store, base: Base)
      ensures this.overlay == overlay && this.base == base
    {
      this.overlay, this.base := overlay, base;
    }

    /** hydrate, then copy on write; nothing to do for a path that has a row, whiteouts included */
    method EnsureOverlay(path: string, env: Spec.Env) returns (r: Result)
      modifies overlay
      ensures (overlay.St(), r) == Spec.EnsureOverlay(base, old(overlay.St()), CleanPath(path), env)
    {
      var p := CleanPath(path);
      if p in overlay.rows { return Ok; }
      if p !in base.nodes { return Fail(ErrNotExist); }
      var n := base.nodes[p];
      if n.oid != "" && env.hyd.HydrationFails? { return Fail(env.hyd.err); }
      r := overlay.EnsureCopyOnWrite(path, n, if env.hyd.Cached? then env.hyd.content else None, env.promote);
    }

    method Write(path: string, off: int, data: Bytes, env: Spec.Env) returns (r: Result)
      modifies overlay
      ensures (overlay.St(), r) == Spec.Write(base, old(overlay.St()), CleanPath(path), off, data, env)
    {
      r := EnsureOverlay(path, env);
      if r.Fail? {
        if r.err != ErrNotExist { return r; }
        r := overlay.CreateFile(path, 420, env.io);
        if r.Fail? { return r; }
      }
      r := overlay.WriteFile(path, off, data, env.io);
    }

    method Truncate(path: string, size: int, env: Spec.Env) returns (r: Result)
      modifies overlay
      ensures (overlay.St(), r) == Spec.TruncateOp(base, old(overlay.St()), CleanPath(path), size, env)
    {
      r := EnsureOverlay(path, env);
      if r.Fail? { return r; }
      r := overlay.Truncate(path, size, env.io);
    }

    method Create(path: string, mode: nat, env: Spec.Env) returns (r: Result)
      modifies overlay
      ensures (overlay.St(), r) == OverlayState.CreateFile(old(overlay.St()), CleanPath(path), mode, env.io)
    {
      r := overlay.CreateFile(path, mode, env.io);
    }

    method Unlink(path: string, env: Spec.Env) returns (r: Result)
      modifies overlay
      ensures (overlay.St(), r) == OverlayState.Remove(old(overlay.St()), CleanPath(path), env.io)
    {
      r := overlay.Remove(path, env.io);
    }

    method Rename(oldPath0: string, newPath0: string, env: Spec.Env) returns (r: Result)
      requires R.Keyed(overlay.rows)
      modifies overlay
      ensures (overlay.St(), r) == Spec.RenameOp(base, old(overlay.St()), CleanPath(oldPath0), CleanPath(newPath0), env)
    {
      var p, q := CleanPath(oldPath0), CleanPath(newPath0);
      CleanPathIdempotent(oldPath0);
      CleanPathIdempotent(newPath0);
      if p == q {
        if p in overlay.rows { return if IsDeleted(overlay.rows[p]) then Fail(ErrNotExist) else Ok; }
        return if p in base.nodes then Ok else Fail(ErrNotExist);
      }
      if p in overlay.rows {
        var ov := overlay.rows[p];
        if IsDeleted(ov) { return Fail(ErrNotExist); }
        if ov.kind == Kind.Mkdir && p in base.nodes { return Fail(ErrInvalid); }
        if q in base.nodes {
          var dst := base.nodes[q];
          if dst.typ == TDir || ov.kind == Kind.Mkdir { return Fail(ErrInvalid); }
          if ov.kind == Kind.Create || ov.kind == Kind.Symlink {
            r := overlay.RenameAndMarkModifiedFromBase(p, q, dst.oid, env.io);
            return r;
          }
        }
        r := overlay.Rename(p, q, env.io);
        return r;
      }
      if p !in base.nodes { return Fail(ErrNotExist); }
      if base.nodes[p].typ == TDir { return Fail(ErrInvalid); }
      if q in base.nodes && base.nodes[q].typ == TDir { return Fail(ErrInvalid); }
      r := EnsureOverlay(p, env);
      if r.Fail? { return r; }
      PromotionKeepsKeys(base, old(overlay.St()), p, env);
      r := overlay.Rename(p, q, env.io);
    }

    method Mkdir(path: string, mode: nat, env: Spec.Env) returns (r: Result)
      modifies overlay
      ensures (overlay.St(), r) == OverlayState.MkdirRow(old(overlay.St()), CleanPath(path), mode, env.io)
    {
      r := overlay.Mkdir(path, mode, env.io);
    }

    /** SetMtime: what is only in the base is brought into the overlay first. */
    method SetMtime(path0: string, t: int, env: Spec.Env) returns (r: Result)
      modifies overlay
      ensures (overlay.St(), r) == Spec.SetMtimeOp(base, old(overlay.St()), CleanPath(path0), t, env)
    {
      var path := CleanPath(path0);
      CleanPathIdempotent(path0);
      if path == "." { return Fail(ErrInvalid); }
      if path !in overlay.rows {
        if path !in base.nodes { return Fail(ErrNotExist); }
        match base.nodes[path].typ {
          case TDir => r := overlay.Mkdir(path, base.nodes[path].mode, env.promote);
          case TFile => r := EnsureOverlay(path, env);
          case TSymlink => return Fail(ErrInvalid);
        }
        if r.Fail? { return r; }
      }
      r := overlay.SetMtime(path, t, env.io);
    }

    /** Rmdir: only an empty listing may be whited out. */
    method Rmdir(path: string, resolver: Resolver, env: Spec.Env) returns (r: Result)
      requires resolver.overlay == overlay && AllKeys(resolver.base, overlay.rows) && IsKey(CleanPath(path))
      modifies overlay
      ensures r == Fail(ErrExist) <==> exists n :: Listed(resolver.base, old(overlay.rows), CleanPath(path), n)
      ensures r == Fail(ErrExist) ==> overlay.St() == old(overlay.St())
      ensures r != Fail(ErrExist) ==>
                (overlay.St(), r) == OverlayState.Remove(old(overlay.St()), CleanPath(path), env.io)
    {
      var children := resolver.ReaddirTyped(path);
      if |children| > 0 {
        ghost var n := children[0].name;
        assert exists i :: 0 <= i < |children| && children[i].name == n;
        assert Listed(resolver.base, overlay.rows, CleanPath(path), n);
        return Fail(ErrExist);
      }
      r := overlay.Remove(path, env.io);
    }

    /** Engine.Read: one row lookup, then the backing file or the hydrated base object. */
    method Read(path: string, off: nat, size: nat, hyd: Spec.Hydration) returns (data: Option<Bytes>)
      ensures data == Spec.Read(base, overlay.St(), CleanPath(path), off, size, hyd)
    {
      var p := CleanPath(path);
      if p in overlay.rows {
        var ov := overlay.rows[p];
        if IsDeleted(ov) { return None; }
        if ov.backing !in overlay.disk || overlay.disk[ov.backing].DirNode? { return None; }
        return Some(Spec.Chunk(overlay.disk[ov.backing].bytes, off, size));
      }
      if p !in base.nodes || hyd.HydrationFails? || hyd.content.None? { return None; }
      return Some(Spec.Chunk(hyd.content.value, off, size));
    }
  }

  lemma PromotionKeepsKeys(base: Base, s: State, p: string, env: Spec.Env)
    requires R.Keyed(s.rows) && p != "" && Spec.EnsureOverlay(base, s, p, env).1.Ok?
    ensures R.Keyed(Spec.EnsureOverlay(base, s, p, env).0.rows)
  {
  }
}
