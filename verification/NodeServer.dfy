/**
 * pkg/csidriver/nodeserver.go, and the driver process as a whole: kubelet calls, controller events and
 * restarts, one after the other, do to the heap exactly what Machine.Next does to the abstract state.
 */
module NodeServer {
  import opened Cluster
  import opened Reservations
  import opened Requests
  import opened Machine
  import opened Registry
  import opened CsiDriver

  class Process {
    var d: Driver
    const rn: ReservedNames

    constructor (d: Driver, rn: ReservedNames)
      ensures this.d == d && this.rn == rn
    {
      this.d, this.rn := d, rn;
    }

    /** NodePublishVolume. */
    method NodePublishVolume(w: World, req: Request, ghost plan: Plan) returns (code: Code)
      requires d.Valid(plan) && Fits(plan, rn, Event(w, PublishStep(req)))
      modifies d
      ensures d.Valid(plan) && (code, d.model) == Publish(w, rn, req, old(d.model))
    {
      hide Sound, Driver.TablesMirror, Validate, Attach, CreateVolume, Fits;
      ghost var st := d.model;
      var checked := Validate(w, rn, req);
      if checked.Rejected? {
        return checked.code;
      }
      var dv := d.CreateVolumeFor(w, req, checked.cm, checked.sec);
      if dv.None? {
        return Internal;
      }
      CreateFits(plan, w, rn, req, st);
      code := MountAndMap(w, req, dv.value, plan);
    }

    /** The part of NodePublishVolume after createVolume. */
    method MountAndMap(w: World, req: Request, dv: DriverVolume, ghost plan: Plan) returns (code: Code)
      requires d.Valid(plan) && dv.volID in d.volumes && d.volumes[dv.volID] == dv
      requires dv.targetPath == req.targetPath && dv.anchorDir == MountID(req)
      modifies d
      ensures d.Valid(plan) && (code, d.model) == Attach(w, req, dv.Fields(), old(d.model))
    {
      hide Sound, Driver.TablesMirror, MapVolume, MountFresh;
      d.MirrorKeys();
      AttachSound(plan, w, req, dv.Fields(), d.model);
      if w.FsFails(req.targetPath) {
        return Internal;
      }
      if req.targetPath in d.mounts {
        return OK;
      }
      MountSound(plan, req, dv.Fields(), d.model);
      d.MakeMount(req);
      code := d.MapVolumeToPod(w, dv, plan);
      if code == Panic {
        return Panic;
      }
      if code != OK {
        return Internal;
      }
      code := d.StoreToDisk(w, dv);
    }

    /** NodeUnpublishVolume. */
    method NodeUnpublishVolume(w: World, id: string, target: Path, ghost plan: Plan) returns (code: Code)
      requires d.Valid(plan)
      modifies d
      ensures d.Valid(plan) && (code, d.model) == Unpublish(w, id, target, old(d.model))
    {
      hide Sound, Driver.TablesMirror, DeleteVolume, Unmounted;
      d.MirrorKeys();
      UnpublishSound(plan, w, id, target, d.model);
      if id == "" || target == "" {
        return InvalidArgument;
      }
      if id !in d.volumes {
        return Internal;
      }
      var dv := d.volumes[id];
      if dv.anchorDir !in d.mounts.Values {
        return Internal;
      }
      d.Unmount(dv.anchorDir);
      d.ForgetVolume(w, id);
      if w.removeFails || dv.volID !in d.disk {
        return Internal;
      }
      d.RemoveRecord(dv.volID);
      return OK;
    }

    /** A new process on the same host: nothing but files, records and mounts survives. */
    method Restarted(w: World, names: seq<string>, ghost plan: Plan)
      requires d.Valid(plan)
      modifies this`d
      ensures fresh(d) && d.Valid(plan) && d.model == Restart(w, old(d.model), names)
    {
      hide Driver.TablesMirror, Load;
      ghost var st := d.model;
      var next := new Driver(d.files, d.disk, d.mounts);
      assert Sound(plan, next.model);
      assert next.model == st.(volumes := map[], secret := NO_CALLBACKS, configMap := NO_CALLBACKS);
      next.LoadVolsFromDisk(w, names, plan);
      d := next;
    }

    /** One kubelet call, controller event or restart. */
    method Handle(e: Event, ghost plan: Plan)
      requires d.Valid(plan) && Fits(plan, rn, e)
      modifies this`d, d
      ensures (d == old(d) || fresh(d)) && d.Valid(plan) && d.model == Next(rn, e, old(d.model))
    {
      hide Sound, Driver.Mirrors, Publish, Unpublish, AddShare, DeleteShare, UpsertObject, DeleteObject, Restart, Prune;
      match e.step
      case PublishStep(req) => var _ := NodePublishVolume(e.w, req, plan);
      case UnpublishStep(id, target) => var _ := NodeUnpublishVolume(e.w, id, target, plan);
      case ShareUpsert(kind, name, ref) => var _ := d.AddShared(e.w, kind, name, ref, plan);
      case ShareDelete(kind, name) => d.DelShared(e.w, kind, name, plan);
      case ObjectUpsert(kind, ref, obj) => d.UpsertBacking(e.w, kind, ref, obj, plan);
      case ObjectDelete(kind, ref) => d.DeleteBacking(e.w, kind, ref, plan);
      case RestartStep(names) => Restarted(e.w, names, plan);
      case PruneStep =>
        PruneSound(plan, e.w, d.model);
        var _ := d.PruneDisk(e.w);
    }

    /** A whole run: what is proved of Machine.Run holds of the driver's own tables, files, records and mounts. */
    method Serve(trace: seq<Event>, ghost plan: Plan)
      requires d.Valid(plan) && forall i :: 0 <= i < |trace| ==> Fits(plan, rn, trace[i])
      modifies this`d, d
      ensures d.Valid(plan) && d.model == Run(rn, trace, old(d.model))
      ensures d.files == d.model.files && d.disk == d.model.disk && d.mounts == d.model.mounts
    {
      hide Sound, Driver.TablesMirror, Next, Fits;
      ghost var st := d.model;
      var i := 0;
      while i < |trace|
        invariant 0 <= i <= |trace| && (d == old(d) || fresh(d))
        invariant d.Valid(plan) && d.model == Run(rn, trace[..i], st)
      {
        assert trace[..i + 1][..i] == trace[..i];
        Handle(trace[i], plan);
        i := i + 1;
      }
      assert trace[..i] == trace;
    }
  }
}
