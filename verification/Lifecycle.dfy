/** Stopping and deleting a workspace (internal/controller/state_machine.go, resource_manager.go,
    resource_manager_access.go): one reconcile at a time against a cluster that may fail any call and may
    lose objects between any two calls, and over whole runs. */
module Lifecycle {
  import opened Text
  import opened Conditions

  /** The objects of a workspace: Deployment, Service, PersistentVolumeClaim and access resources. */
  datatype Name = Deployment | Service | Claim | Access(ref: string)

  /** An object is alive until it gets a deletion timestamp. */
  datatype Obj = Alive | Terminating

  type Objects = map<Name, Obj>

  /** What the cluster does to one API call: which objects went or got a deletion timestamp just before
      it, and whether the call fails. */
  datatype Answer = Answer(fails: bool, gone: set<Name>, marked: set<Name>)

  type Env = nat -> Answer

  /** The cluster, and how many calls have been made. */
  datatype World = World(objects: Objects, calls: nat)

  function Disturbed(objects: Objects, a: Answer): Objects {
    map n | n in objects && n !in a.gone :: if n in a.marked then Terminating else objects[n]
  }

  function Called(w: World, env: Env): World {
    World(Disturbed(w.objects, env(w.calls)), w.calls + 1)
  }

  predicate Fails(w: World, env: Env) { env(w.calls).fails }

  datatype Read = ReadFailed | NotFound | Found(obj: Obj)

  function ReadOf(w: World, env: Env, name: Name): Read {
    var objects := Called(w, env).objects;
    if Fails(w, env) then ReadFailed else if name in objects then Found(objects[name]) else NotFound
  }

  datatype Deletion = DeleteFailed | Absent | Accepted

  function DeletionOf(w: World, env: Env, name: Name): Deletion {
    if Fails(w, env) then DeleteFailed else if name in Called(w, env).objects then Accepted else Absent
  }

  function Deleted(w: World, env: Env, name: Name): World {
    var w' := Called(w, env);
    if DeletionOf(w, env, name).Accepted? then w'.(objects := w'.objects[name := Terminating]) else w'
  }

  datatype Creation = CreateFailed | AlreadyExists | Created

  function CreationOf(w: World, env: Env, name: Name): Creation {
    if Fails(w, env) then CreateFailed else if name in Called(w, env).objects then AlreadyExists else Created
  }

  function AfterCreate(w: World, env: Env, name: Name): World {
    var w' := Called(w, env);
    if CreationOf(w, env, name).Created? then w'.(objects := w'.objects[name := Alive]) else w'
  }

  /** An update needs the object to be there; it does not change whether it is alive. */
  predicate Updates(w: World, env: Env, name: Name) { !Fails(w, env) && name in Called(w, env).objects }

  /** The object as read before the delete, and whether both calls went well. */
  datatype Ensured = Ensured(world: World, seen: Option<Obj>, ok: bool)

  function EnsureDeleted(w: World, env: Env, name: Name): Ensured {
    var w1 := Called(w, env);
    match ReadOf(w, env, name)
    case ReadFailed => Ensured(w1, None, false)
    case NotFound => Ensured(w1, None, true)
    case Found(Terminating) => Ensured(w1, Some(Terminating), true)
    case Found(Alive) => Ensured(Deleted(w1, env, name), Some(Alive), DeletionOf(w1, env, name).Accepted?)
  }

  datatype Step = Step(world: World, ok: bool)

  function EnsureAccessGone(w: World, env: Env, ref: string): Step {
    var w1 := Called(w, env);
    match ReadOf(w, env, Access(ref))
    case ReadFailed => Step(w1, false)
    case NotFound => Step(w1, true)
    case Found(_) => Step(Deleted(w1, env, Access(ref)), !DeletionOf(w1, env, Access(ref)).DeleteFailed?)
  }

  /** The tracked access resources in turn, up to the first error. */
  function EnsureAllAccessGone(w: World, env: Env, tracked: seq<string>): Step
    decreases |tracked|
  {
    if tracked == [] then Step(w, true)
    else
      var s := EnsureAccessGone(w, env, tracked[0]);
      if s.ok then EnsureAllAccessGone(s.world, env, tracked[1..]) else s
  }

  /** A workspace as persisted, with its objects. `deleting` is its own deletion timestamp. */
  datatype State = State(objects: Objects, tracked: seq<string>, status: Status, finalizer: bool, deleting: bool)

  datatype Result = Done | Requeue | Err

  /** `ok` when the API server answered every call of the pass without an error. */
  datatype Outcome = Outcome(state: State, result: Result, ok: bool, update: Option<Update>)

  predicate Stored(w: World, env: Env, u: Update) { !Fails(w, env) && !Refused(u) }

  /** The status write with which a pass ends, from the status it has in memory; `ok` is whether the pass
      itself has met no error. */
  ghost function FinishFrom(s: State, memory: Status, w: World, env: Env, tracked: seq<string>, u: Update, at: int,
                            ok: bool, result: Result): Outcome
  {
    var objects := Called(w, env).objects;
    if Stored(w, env, u) then
      Outcome(State(objects, tracked, Updated(memory, u, at), s.finalizer, s.deleting), result, ok, Some(u))
    else Outcome(s.(objects := objects), Err, false, None)
  }

  ghost function Finish(s: State, w: World, env: Env, tracked: seq<string>, u: Update, at: int, ok: bool, result: Result): Outcome {
    FinishFrom(s, s.status, w, env, tracked, u, at, ok, result)
  }

  ghost function StopPass(s: State, env: Env, preempted: bool, at: int): Outcome {
    var access := EnsureAllAccessGone(World(s.objects, 0), env, s.tracked);
    var tracked := if access.ok then [] else s.tracked;
    var d := EnsureDeleted(access.world, env, Deployment);
    if !d.ok then Finish(s, d.world, env, tracked, Error("ComputeError", "failed to get deployment"), at, false, Err)
    else
      var v := EnsureDeleted(d.world, env, Service);
      if !v.ok then Finish(s, v.world, env, tracked, Error("ServiceError", "failed to get service"), at, false, Err)
      else
        var deploymentDown, serviceDown := d.seen != Some(Alive), v.seen != Some(Alive);
        if deploymentDown && serviceDown then
          if !access.ok then Finish(s, v.world, env, tracked, Error("ServiceError", "failed to delete access resources"), at, false, Err)
          else Finish(s, v.world, env, tracked, HasStopped(preempted), at, true, Done)
        else if deploymentDown || serviceDown then
          Finish(s, v.world, env, tracked, Stopping(Parts(deploymentDown, serviceDown, tracked == [])), at, access.ok, Requeue)
        else Finish(s, v.world, env, tracked, Error("ComputeError", "unexpected state"), at, access.ok, Err)
  }

  /** `gone` when nothing is left; `ok` when the calls so far let the pass go on; `calm` when none of them
      met an error. */
  datatype Cleaned = Cleaned(world: World, gone: bool, ok: bool, calm: bool)

  /** Three reads, each of which must not find its object, up to the first that does or fails. */
  function AllGone(w: World, env: Env, tracked: seq<string>): Cleaned {
    var w1, r1 := Called(w, env), ReadOf(w, env, Deployment);
    if r1 != NotFound then Cleaned(w1, false, true, !r1.ReadFailed?)
    else
      var w2, r2 := Called(w1, env), ReadOf(w1, env, Service);
      if r2 != NotFound then Cleaned(w2, false, true, !r2.ReadFailed?)
      else
        var w3, r3 := Called(w2, env), ReadOf(w2, env, Claim);
        Cleaned(w3, r3 == NotFound && tracked == [], true, !r3.ReadFailed?)
  }

  /** An error on an access resource keeps the list but does not end the pass. */
  function CleanupAllResources(w: World, env: Env, tracked: seq<string>): Cleaned {
    var access := EnsureAllAccessGone(w, env, tracked);
    var d := EnsureDeleted(access.world, env, Deployment);
    if !d.ok then Cleaned(d.world, false, false, false)
    else
      var v := EnsureDeleted(d.world, env, Service);
      if !v.ok then Cleaned(v.world, false, false, false)
      else
        var c := EnsureDeleted(v.world, env, Claim);
        if !c.ok then Cleaned(c.world, false, false, false)
        else
          var all := AllGone(c.world, env, if access.ok then [] else tracked);
          all.(calm := all.calm && access.ok)
  }

  ghost function DeletionPass(s: State, env: Env, at: int): Outcome {
    if !s.finalizer then Outcome(s, Done, true, None)
    else
      var w := World(s.objects, 0);
      if Fails(w, env) then Outcome(s.(objects := Called(w, env).objects), Err, false, None)
      else
        var s' := s.(status := Updated(s.status, IsDeleting, at));
        var cleaned := CleanupAllResources(Called(w, env), env, s.tracked);
        if !cleaned.ok then Outcome(s'.(objects := cleaned.world.objects), Err, false, Some(IsDeleting))
        else if !cleaned.gone then Outcome(s'.(objects := cleaned.world.objects), Requeue, cleaned.calm, Some(IsDeleting))
        else
          var w' := Called(cleaned.world, env);
          if Fails(cleaned.world, env) then Outcome(s'.(objects := w'.objects), Err, false, Some(IsDeleting))
          else Outcome(s'.(objects := w'.objects, finalizer := false), Done, cleaned.calm, Some(IsDeleting))
  }

  // ---------------------------------------------------------------- the passes, step by step

  /** A reconcile: the cluster as its calls see it, and the workspace in memory and as stored. */
  class Reconciler {
    const env: Env
    const workspace: Workspace
    var objects: Objects
    var calls: nat
    var tracked: seq<string>
    var storedTracked: seq<string>
    var finalizer: bool
    const deleting: bool

    ghost function Cluster(): World
      reads this
    {
      World(objects, calls)
    }

    /** The workspace as persisted. */
    ghost function Persisted(): State
      reads this, workspace
    {
      State(objects, storedTracked, workspace.stored, finalizer, deleting)
    }

    /** A pass begins with the workspace as the API server holds it. */
    ghost predicate Loaded()
      reads this, workspace
    {
      calls == 0 && tracked == storedTracked && workspace.Value() == workspace.stored
    }

    constructor (env: Env, workspace: Workspace, objects: Objects, tracked: seq<string>, finalizer: bool, deleting: bool)
      requires workspace.Value() == workspace.stored
      ensures Loaded() && this.env == env && this.workspace == workspace
      ensures Persisted() == State(objects, tracked, workspace.stored, finalizer, deleting)
    {
      this.env, this.workspace, this.objects, this.calls := env, workspace, objects, 0;
      this.tracked, this.storedTracked, this.finalizer, this.deleting := tracked, tracked, finalizer, deleting;
    }

    method Call() returns (accepted: bool)
      modifies this`objects, this`calls
      ensures Cluster() == Called(old(Cluster()), env) && accepted == !Fails(old(Cluster()), env)
    {
      accepted := !env(calls).fails;
      objects := Disturbed(objects, env(calls));
      calls := calls + 1;
    }

    method Get(name: Name) returns (r: Read)
      modifies this`objects, this`calls
      ensures Cluster() == Called(old(Cluster()), env) && r == ReadOf(old(Cluster()), env, name)
    {
      var accepted := Call();
      if !accepted {
        return ReadFailed;
      }
      r := if name in objects then Found(objects[name]) else NotFound;
    }

    method DeleteObject(name: Name) returns (r: Deletion)
      modifies this`objects, this`calls
      ensures Cluster() == Deleted(old(Cluster()), env, name) && r == DeletionOf(old(Cluster()), env, name)
    {
      var accepted := Call();
      if !accepted {
        return DeleteFailed;
      }
      if name !in objects {
        return Absent;
      }
      objects := objects[name := Terminating];
      return Accepted;
    }

    method CreateObject(name: Name) returns (r: Creation)
      modifies this`objects, this`calls
      ensures Cluster() == AfterCreate(old(Cluster()), env, name) && r == CreationOf(old(Cluster()), env, name)
    {
      var accepted := Call();
      if !accepted {
        return CreateFailed;
      }
      if name in objects {
        return AlreadyExists;
      }
      objects := objects[name := Alive];
      return Created;
    }

    method UpdateObject(name: Name) returns (ok: bool)
      modifies this`objects, this`calls
      ensures Cluster() == Called(old(Cluster()), env) && ok == Updates(old(Cluster()), env, name)
    {
      var accepted := Call();
      return accepted && name in objects;
    }

    /** The same for Deployment, Service and claim: the object is returned as read before the delete. */
    method EnsureObjectDeleted(name: Name) returns (seen: Option<Obj>, ok: bool)
      modifies this`objects, this`calls
      ensures Ensured(Cluster(), seen, ok) == EnsureDeleted(old(Cluster()), env, name)
      ensures var w := old(Cluster());
              ok <==> && !env(w.calls).fails
                      && (StillAlive(w, env, name) ==> !env(w.calls + 1).fails && name !in env(w.calls + 1).gone)
      ensures ok ==> (name in objects <==> StillThere(old(Cluster()), env, name)) && Down(objects, name)
      ensures ok ==> (seen.Some? <==> name in objects) && (seen == Some(Alive) <==> StillAlive(old(Cluster()), env, name))
    {
      DeleteByAnswers(Cluster(), env, name);
      var r := Get(name);
      if r.NotFound? {
        return None, true;
      }
      if r.ReadFailed? {
        return None, false;
      }
      if r.obj.Alive? {
        var deletion := DeleteObject(name);
        return Some(r.obj), deletion.Accepted?;
      }
      return Some(r.obj), true;
    }

    method EnsureAccessResourceDeleted(ref: string) returns (removed: bool, ok: bool)
      modifies this`objects, this`calls
      ensures Step(Cluster(), ok) == EnsureAccessGone(old(Cluster()), env, ref) && removed == ok
    {
      var r := Get(Access(ref));
      if r.NotFound? {
        return true, true;
      }
      if r.ReadFailed? {
        return false, false;
      }
      var deletion := DeleteObject(Access(ref));
      if deletion.DeleteFailed? {
        return false, false;
      }
      return true, true;
    }

    /** Empties the tracked list, or leaves it as it is and fails. */
    method EnsureAccessResourcesDeleted() returns (ok: bool)
      modifies this`objects, this`calls, this`tracked
      ensures Step(Cluster(), ok) == EnsureAllAccessGone(old(Cluster()), env, old(tracked))
      ensures tracked == if ok then [] else old(tracked)
    {
      if |tracked| == 0 {
        return true;
      }
      var filtered := [];
      for i := 0 to |tracked|
        invariant tracked == old(tracked) && filtered == []
        invariant EnsureAllAccessGone(old(Cluster()), env, tracked) == EnsureAllAccessGone(Cluster(), env, tracked[i..])
      {
        var accessResource := tracked[i];
        var removed, done := EnsureAccessResourceDeleted(accessResource);
        assert tracked[i..][1..] == tracked[i + 1..];
        if !done {
          return false;
        }
        if !removed {
          filtered := filtered + [accessResource];
        }
      }
      tracked := filtered;
      return true;
    }

    /** Reports an error; whether the write is accepted changes nothing else. */
    method WriteError(reason: string, message: string, at: int)
      requires workspace.Value() == workspace.stored
      modifies this`objects, this`calls, this`storedTracked, workspace
      ensures Persisted() == Finish(old(Persisted()), old(Cluster()), env, tracked, Error(reason, message), at, true, Err).state
    {
      var accepted := Call();
      var ok := workspace.UpdateErrorStatus(reason, message, at, accepted);
      if ok {
        storedTracked := tracked;
      }
    }

    /** Towards Stopped. The source's branch for a list that is still not empty after its deletion
        succeeded is never taken, as that deletion empties the list. */
    method ReconcileDesiredStoppedStatus(preempted: bool, at: int) returns (result: Result)
      requires Loaded()
      modifies this`objects, this`calls, this`tracked, this`storedTracked, workspace
      ensures var o := StopPass(old(Persisted()), env, preempted, at); Persisted() == o.state && result == o.result
    {
      hide EnsureDeleted, EnsureAllAccessGone, Updated, Called, StillAlive, StillThere, Down;
      var accessOk := EnsureAccessResourcesDeleted();
      var deployment, deploymentOk := EnsureObjectDeleted(Deployment);
      if !deploymentOk {
        WriteError("ComputeError", "failed to get deployment", at);
        return Err;
      }
      var service, serviceOk := EnsureObjectDeleted(Service);
      if !serviceOk {
        WriteError("ServiceError", "failed to get service", at);
        return Err;
      }
      var deploymentDeleted := deployment != Some(Alive);
      var serviceDeleted := service != Some(Alive);
      if deploymentDeleted && serviceDeleted {
        if !accessOk {
          WriteError("ServiceError", "failed to delete access resources", at);
          return Err;
        }
        var accepted := Call();
        var ok := workspace.UpdateStoppedStatus(preempted, at, accepted);
        if !ok {
          return Err;
        }
        storedTracked := tracked;
        return Done;
      }
      if deploymentDeleted || serviceDeleted {
        var accepted := Call();
        var ok := workspace.UpdateStoppingStatus(Parts(deploymentDeleted, serviceDeleted, tracked == []), at, accepted);
        if !ok {
          return Err;
        }
        storedTracked := tracked;
        return Requeue;
      }
      WriteError("ComputeError", "unexpected state", at);
      return Err;
    }

    method AreAllResourcesDeleted() returns (gone: bool)
      modifies this`objects, this`calls
      ensures var g := AllGone(old(Cluster()), env, tracked); Cluster() == g.world && gone == g.gone
    {
      var deployment := Get(Deployment);
      if deployment != NotFound {
        return false;
      }
      var service := Get(Service);
      if service != NotFound {
        return false;
      }
      var claim := Get(Claim);
      if claim != NotFound {
        return false;
      }
      return |tracked| == 0;
    }

    method CleanupResources() returns (gone: bool, ok: bool)
      modifies this`objects, this`calls, this`tracked
      ensures var c := CleanupAllResources(old(Cluster()), env, old(tracked)); Cluster() == c.world && gone == c.gone && ok == c.ok
    {
      hide EnsureDeleted, EnsureAllAccessGone, Called, StillAlive, StillThere, Down;
      var accessOk := EnsureAccessResourcesDeleted();
      var _, deploymentOk := EnsureObjectDeleted(Deployment);
      if !deploymentOk {
        return false, false;
      }
      var _, serviceOk := EnsureObjectDeleted(Service);
      if !serviceOk {
        return false, false;
      }
      var _, claimOk := EnsureObjectDeleted(Claim);
      if !claimOk {
        return false, false;
      }
      gone := AreAllResourcesDeleted();
      ok := true;
    }

    method ReconcileDeletion(at: int) returns (result: Result)
      requires Loaded()
      modifies this, workspace
      ensures var o := DeletionPass(old(Persisted()), env, at); Persisted() == o.state && result == o.result
    {
      hide EnsureDeleted, EnsureAllAccessGone, Updated, Called, CleanupAllResources;
      if !finalizer {
        return Done;
      }
      var accepted := Call();
      var ok := workspace.UpdateDeletingStatus(at, accepted);
      if !ok {
        return Err;
      }
      storedTracked := tracked;
      var gone, cleaned := CleanupResources();
      if !cleaned {
        return Err;
      }
      if !gone {
        return Requeue;
      }
      var removed := Call();
      if !removed {
        return Err;
      }
      finalizer := false;
      return Done;
    }
  }

  // ---------------------------------------------------------------- what one call can do

  /** `after` has no object that `before` has not, and none alive that was not. */
  ghost predicate Worn(before: Objects, after: Objects) {
    forall n :: n in after ==> n in before && (after[n].Alive? ==> before[n].Alive?)
  }

  /** The object is missing or has a deletion timestamp. */
  predicate Down(objects: Objects, name: Name) { name in objects ==> objects[name].Terminating? }

  ghost predicate AccessDown(objects: Objects, tracked: seq<string>) {
    forall i :: 0 <= i < |tracked| ==> Down(objects, Access(tracked[i]))
  }

  /** Nobody but the controller touches the object. */
  ghost predicate Leaves(env: Env, name: Name) {
    forall k :: name !in env(k).gone && name !in env(k).marked
  }

  predicate Same(before: Objects, after: Objects, name: Name) {
    (name in after <==> name in before) && (name in after ==> after[name] == before[name])
  }

  lemma {:induction false} CalledFacts(w: World, env: Env, other: Name)
    ensures Worn(w.objects, Called(w, env).objects)
    ensures Leaves(env, other) ==> Same(w.objects, Called(w, env).objects, other)
  {
  }

  lemma {:induction false} DeletedFacts(w: World, env: Env, name: Name, other: Name)
    ensures Worn(w.objects, Deleted(w, env, name).objects)
    ensures DeletionOf(w, env, name) != DeleteFailed ==> Down(Deleted(w, env, name).objects, name)
    ensures Leaves(env, other) && name != other ==> Same(w.objects, Deleted(w, env, name).objects, other)
  {
    CalledFacts(w, env, other);
  }

  lemma {:induction false} WornTrans(a: Objects, b: Objects, c: Objects)
    requires Worn(a, b) && Worn(b, c)
    ensures Worn(a, c)
  {
  }

  lemma {:induction false} WornDown(a: Objects, b: Objects, name: Name)
    requires Worn(a, b)
    ensures Down(a, name) ==> Down(b, name)
    ensures name !in a ==> name !in b
  {
  }

  lemma {:induction false} WornAccess(a: Objects, b: Objects, tracked: seq<string>)
    requires Worn(a, b) && AccessDown(a, tracked)
    ensures AccessDown(b, tracked)
  {
    hide Worn, Down;
    forall i | 0 <= i < |tracked|
      ensures Down(b, Access(tracked[i]))
    {
      WornDown(a, b, Access(tracked[i]));
    }
  }

  /** The object is down once both calls went well, whatever was read. */
  lemma {:induction false} EnsureDeletedFacts(w: World, env: Env, name: Name, other: Name)
    ensures var e := EnsureDeleted(w, env, name);
            && Worn(w.objects, e.world.objects)
            && (e.ok ==> Down(e.world.objects, name))
            && (Leaves(env, other) && name != other ==> Same(w.objects, e.world.objects, other))
            && (Down(w.objects, name) ==> e.seen != Some(Alive))
  {
    hide Deleted, DeletionOf, Leaves;
    var w1 := Called(w, env);
    CalledFacts(w, env, other);
    DeletedFacts(w1, env, name, other);
    WornTrans(w.objects, w1.objects, Deleted(w1, env, name).objects);
  }

  lemma {:induction false} EnsureAccessFacts(w: World, env: Env, ref: string, other: Name)
    ensures var s := EnsureAccessGone(w, env, ref);
            && Worn(w.objects, s.world.objects)
            && (s.ok ==> Down(s.world.objects, Access(ref)))
            && (Leaves(env, other) && !other.Access? ==> Same(w.objects, s.world.objects, other))
  {
    hide Deleted, DeletionOf, Leaves;
    var w1 := Called(w, env);
    CalledFacts(w, env, other);
    DeletedFacts(w1, env, Access(ref), other);
    WornTrans(w.objects, w1.objects, Deleted(w1, env, Access(ref)).objects);
  }

  lemma {:induction false} EnsureAllAccessFacts(w: World, env: Env, tracked: seq<string>, other: Name)
    ensures var s := EnsureAllAccessGone(w, env, tracked);
            && Worn(w.objects, s.world.objects)
            && (s.ok ==> AccessDown(s.world.objects, tracked))
            && (Leaves(env, other) && !other.Access? ==> Same(w.objects, s.world.objects, other))
    decreases |tracked|
  {
    if tracked == [] {
    } else {
      hide EnsureAccessGone, Worn, Down, Leaves;
      var one := EnsureAccessGone(w, env, tracked[0]);
      EnsureAccessFacts(w, env, tracked[0], other);
      if one.ok {
        var all := EnsureAllAccessGone(one.world, env, tracked[1..]);
        EnsureAllAccessFacts(one.world, env, tracked[1..], other);
        WornTrans(w.objects, one.world.objects, all.world.objects);
        WornDown(one.world.objects, all.world.objects, Access(tracked[0]));
        assert all.ok ==> forall i :: 0 < i < |tracked| ==> tracked[i] == tracked[1..][i - 1];
      }
    }
  }

  // ---------------------------------------------------------------- what the answers decide

  /** As the next call finds it. */
  predicate StillThere(w: World, env: Env, name: Name) { name in w.objects && name !in env(w.calls).gone }
  predicate StillAlive(w: World, env: Env, name: Name) {
    StillThere(w, env, name) && w.objects[name].Alive? && name !in env(w.calls).marked
  }

  /** The delete of one object, from the answers alone: it goes well exactly when the read does, and, for
      an object found alive, the delete does and still finds it. An object that was there is then
      terminating, not gone, and what is returned is how it was read. */
  lemma {:induction false} DeleteByAnswers(w: World, env: Env, name: Name)
    ensures var e, there, alive := EnsureDeleted(w, env, name), StillThere(w, env, name), StillAlive(w, env, name);
            && (e.ok <==> !env(w.calls).fails && (alive ==> !env(w.calls + 1).fails && name !in env(w.calls + 1).gone))
            && (e.ok ==> (name in e.world.objects <==> there) && (there ==> e.world.objects[name] == Terminating))
            && (e.ok ==> e.seen == if !there then None else Some(if alive then Alive else Terminating))
  {
  }

  /** The same for an access resource, which may go between read and delete. */
  lemma {:induction false} AccessGoneByAnswers(w: World, env: Env, ref: string)
    ensures var s, there := EnsureAccessGone(w, env, ref), StillThere(w, env, Access(ref));
            && (s.ok <==> !env(w.calls).fails && (there ==> !env(w.calls + 1).fails))
            && (s.ok ==> (Access(ref) in s.world.objects <==> there && Access(ref) !in env(w.calls + 1).gone))
            && (s.ok && Access(ref) in s.world.objects ==> s.world.objects[Access(ref)] == Terminating)
  {
  }

  /** No call fails, and no object goes without having had a deletion timestamp at the start. */
  ghost predicate Orderly(start: Objects, env: Env) {
    forall k :: !env(k).fails && forall n :: n in env(k).gone ==> Down(start, n)
  }

  lemma {:induction false} OrderlyDelete(start: Objects, w: World, env: Env, name: Name)
    requires Orderly(start, env) && Worn(start, w.objects)
    ensures var e := EnsureDeleted(w, env, name); e.ok && Worn(start, e.world.objects)
  {
    hide EnsureDeleted;
    DeleteByAnswers(w, env, name);
    EnsureDeletedFacts(w, env, name, name);
    WornTrans(start, w.objects, EnsureDeleted(w, env, name).world.objects);
  }

  lemma {:induction false} OrderlyAccess(start: Objects, w: World, env: Env, tracked: seq<string>)
    requires Orderly(start, env)
    ensures EnsureAllAccessGone(w, env, tracked).ok
    decreases |tracked|
  {
    if tracked == [] {
    } else {
      hide EnsureAccessGone;
      AccessGoneByAnswers(w, env, tracked[0]);
      OrderlyAccess(start, EnsureAccessGone(w, env, tracked[0]).world, env, tracked[1..]);
    }
  }

  // ---------------------------------------------------------------- stopping

  predicate ShowsStopped(st: Status) {
    var c := Find(st.conditions, STOPPED);
    c.Some? && c.value.status
  }

  lemma {:induction false} StoppedAsked(u: Update, at: int, c: Condition)
    requires c in Requested(u, at) && c.kind == STOPPED
    ensures c.status == u.HasStopped?
  {
    hide StartingReason, StoppingReason;
    KindsDiffer();
  }

  /** Only the update of a finished stop turns Stopped to true. */
  lemma {:induction false} OnlyStopShows(st: Status, u: Update, at: int)
    requires !ShowsStopped(st) && ShowsStopped(Updated(st, u, at))
    ensures u.HasStopped? && !Refused(u)
  {
    hide Merged, Requested, Requests, Find;
    if !Refused(u) {
      hide Updated;
      UpdateShows(st, u, at, STOPPED);
      var c :| c in Requested(u, at) && c.kind == STOPPED && SaysAlready(Updated(st, u, at).conditions, c);
      StoppedAsked(u, at, c);
    }
  }

  /** The clusters a stop pass goes through before it writes. */
  ghost function AfterAccess(s: State, env: Env): World { EnsureAllAccessGone(World(s.objects, 0), env, s.tracked).world }
  ghost function AfterDeployment(s: State, env: Env): World { EnsureDeleted(AfterAccess(s, env), env, Deployment).world }
  ghost function AfterService(s: State, env: Env): World { EnsureDeleted(AfterDeployment(s, env), env, Service).world }

  /** The calls a stop pass makes all went well. */
  ghost predicate StopCallsOk(s: State, env: Env) {
    && EnsureAllAccessGone(World(s.objects, 0), env, s.tracked).ok
    && EnsureDeleted(AfterAccess(s, env), env, Deployment).ok
    && EnsureDeleted(AfterDeployment(s, env), env, Service).ok
  }

  lemma {:induction false} StopEnds(s: State, env: Env, preempted: bool, at: int)
    ensures var o := StopPass(s, env, preempted, at);
            && o.state.finalizer == s.finalizer && o.state.deleting == s.deleting
            && o.state.tracked in {[], s.tracked}
            && (o.update == Some(HasStopped(preempted)) ==> o.ok && ShowsStopped(o.state.status))
            && (o.ok <==> StopCallsOk(s, env) && !Fails(AfterService(s, env), env))
            && (o.ok ==> o.state.tracked == [])
  {
    hide EnsureDeleted, EnsureAllAccessGone, Called, ShowsStopped, Updated;
    HasStoppedShows(s.status, preempted, at);
  }

  lemma {:induction false} StopObjects(s: State, env: Env, preempted: bool, at: int)
    ensures var o := StopPass(s, env, preempted, at);
            || o.state.objects == Called(AfterService(s, env), env).objects
            || (o.state.objects == Called(AfterDeployment(s, env), env).objects && !o.ok)
  {
    hide EnsureDeleted, EnsureAllAccessGone, Called, Updated;
  }

  lemma {:induction false} HasStoppedShows(st: Status, preempted: bool, at: int)
    ensures ShowsStopped(Updated(st, HasStopped(preempted), at))
  {
    hide Merged, Requested, Find;
    var u := HasStopped(preempted);
    StoppedListed(preempted, at);
    hide Updated;
    UpdateShows(st, u, at, STOPPED);
    var c :| c in Requested(u, at) && c.kind == STOPPED && SaysAlready(Updated(st, u, at).conditions, c);
    StoppedAsked(u, at, c);
  }

  lemma {:induction false} StoppedListed(preempted: bool, at: int)
    ensures Requests(Requested(HasStopped(preempted), at), STOPPED)
  {
    assert Requested(HasStopped(preempted), at)[3].kind == STOPPED;
  }

  lemma {:induction false} StopWears(s: State, env: Env)
    ensures Worn(s.objects, Called(AfterDeployment(s, env), env).objects)
    ensures Worn(s.objects, Called(AfterService(s, env), env).objects)
    ensures Worn(AfterAccess(s, env).objects, Called(AfterService(s, env), env).objects)
    ensures Worn(AfterDeployment(s, env).objects, Called(AfterService(s, env), env).objects)
  {
    hide EnsureDeleted, EnsureAllAccessGone, Called, Worn, Leaves, AccessDown, Same;
    var a, d, v := AfterAccess(s, env), AfterDeployment(s, env), AfterService(s, env);
    EnsureAllAccessFacts(World(s.objects, 0), env, s.tracked, Claim);
    EnsureDeletedFacts(a, env, Deployment, Claim);
    EnsureDeletedFacts(d, env, Service, Claim);
    CalledFacts(d, env, Claim);
    CalledFacts(v, env, Claim);
    WornTrans(s.objects, a.objects, d.objects);
    WornTrans(s.objects, d.objects, Called(d, env).objects);
    WornTrans(d.objects, v.objects, Called(v, env).objects);
    WornTrans(a.objects, d.objects, Called(v, env).objects);
    WornTrans(s.objects, d.objects, Called(v, env).objects);
  }

  /** Whatever fails and whatever goes away half way: a stop pass creates nothing, and writes Stopped only
      when Deployment and Service are missing or terminating, no access resource is tracked and none of
      those tracked before is alive. */
  lemma {:induction false} StopIsSafe(s: State, env: Env, preempted: bool, at: int)
    ensures var o := StopPass(s, env, preempted, at);
            && Worn(s.objects, o.state.objects)
            && o.state.finalizer == s.finalizer && o.state.deleting == s.deleting
            && (o.update == Some(HasStopped(preempted)) ==>
                  && o.state.tracked == []
                  && Down(o.state.objects, Deployment) && Down(o.state.objects, Service)
                  && AccessDown(o.state.objects, s.tracked))
  {
    hide StopPass, EnsureDeleted, EnsureAllAccessGone, Called, Worn, Down, AccessDown, ShowsStopped;
    StopEnds(s, env, preempted, at);
    StopObjects(s, env, preempted, at);
    StopWears(s, env);
    StopDown(s, env);
  }

  /** What holds at the end of a stop pass whose delete calls went well. */
  lemma {:induction false} StopDown(s: State, env: Env)
    ensures var a := EnsureAllAccessGone(World(s.objects, 0), env, s.tracked);
            var d := EnsureDeleted(AfterAccess(s, env), env, Deployment);
            var v := EnsureDeleted(AfterDeployment(s, env), env, Service);
            var end := Called(AfterService(s, env), env).objects;
            && (a.ok ==> AccessDown(end, s.tracked))
            && (d.ok ==> Down(end, Deployment))
            && (v.ok ==> Down(end, Service))
  {
    hide EnsureDeleted, EnsureAllAccessGone, Called, Worn, Down, Leaves, AccessDown, Same;
    StopWears(s, env);
    var a, d, v := AfterAccess(s, env), AfterDeployment(s, env), AfterService(s, env);
    var end := Called(v, env).objects;
    EnsureAllAccessFacts(World(s.objects, 0), env, s.tracked, Claim);
    EnsureDeletedFacts(a, env, Deployment, Claim);
    EnsureDeletedFacts(d, env, Service, Claim);
    CalledFacts(v, env, Claim);
    WornDown(d.objects, end, Deployment);
    WornDown(v.objects, end, Service);
    if AccessDown(a.objects, s.tracked) {
      WornAccess(a.objects, end, s.tracked);
    }
  }

  /** The list of tracked access resources is given up only when none of them is alive. */
  lemma {:induction false} StopTracked(s: State, env: Env, preempted: bool, at: int)
    ensures var o := StopPass(s, env, preempted, at);
            o.state.tracked == s.tracked || (o.state.tracked == [] && AccessDown(o.state.objects, s.tracked))
  {
    hide StopPass, EnsureDeleted, EnsureAllAccessGone, Called, Worn, AccessDown, ShowsStopped, Leaves, Same, Down;
    StopEnds(s, env, preempted, at);
    StopObjects(s, env, preempted, at);
    StopGivesUp(s, env, preempted, at);
    StopDown(s, env);
    var a, d := AfterAccess(s, env), AfterDeployment(s, env);
    EnsureAllAccessFacts(World(s.objects, 0), env, s.tracked, Claim);
    EnsureDeletedFacts(a, env, Deployment, Claim);
    CalledFacts(d, env, Claim);
    WornTrans(a.objects, d.objects, Called(d, env).objects);
    if AccessDown(a.objects, s.tracked) {
      WornAccess(a.objects, Called(d, env).objects, s.tracked);
    }
  }

  lemma {:induction false} StopGivesUp(s: State, env: Env, preempted: bool, at: int)
    ensures StopPass(s, env, preempted, at).state.tracked == s.tracked || EnsureAllAccessGone(World(s.objects, 0), env, s.tracked).ok
  {
    hide EnsureDeleted, EnsureAllAccessGone, Called, Updated;
  }

  /** The controller leaves the claim alone while stopping. */
  lemma {:induction false} StopKeepsClaim(s: State, env: Env, preempted: bool, at: int)
    requires Leaves(env, Claim)
    ensures Same(s.objects, StopPass(s, env, preempted, at).state.objects, Claim)
  {
    hide StopPass, EnsureDeleted, EnsureAllAccessGone, Called, Worn, Down, AccessDown, Leaves;
    StopObjects(s, env, preempted, at);
    var a, d, v := AfterAccess(s, env), AfterDeployment(s, env), AfterService(s, env);
    EnsureAllAccessFacts(World(s.objects, 0), env, s.tracked, Claim);
    EnsureDeletedFacts(a, env, Deployment, Claim);
    EnsureDeletedFacts(d, env, Service, Claim);
    CalledFacts(d, env, Claim);
    CalledFacts(v, env, Claim);
  }

  /** What a stop pass reads of Deployment and Service, before its own deletes. */
  ghost function DeploymentRead(s: State, env: Env): Option<Obj> { EnsureDeleted(AfterAccess(s, env), env, Deployment).seen }
  ghost function ServiceRead(s: State, env: Env): Option<Obj> { EnsureDeleted(AfterDeployment(s, env), env, Service).seen }

  /** Without API errors a pass succeeds when it read neither object alive, waits when it read one, and
      reports an error when it read both. */
  lemma {:induction false} StopResult(s: State, env: Env, preempted: bool, at: int)
    ensures var o, d, v := StopPass(s, env, preempted, at), DeploymentRead(s, env) == Some(Alive), ServiceRead(s, env) == Some(Alive);
            o.ok ==>
              && (o.result == Done <==> !d && !v)
              && (o.result == Err <==> d && v)
              && (o.result == Done ==> o.update == Some(HasStopped(preempted)))
              && (o.result == Requeue ==> o.update == Some(Stopping(Parts(!d, !v, true))))
              && (o.result == Err ==> o.update.Some? && o.update.value.Error?)
  {
    hide EnsureDeleted, EnsureAllAccessGone, Called, Updated;
  }

  /** A pass without API errors leaves both objects down; if both were down before, it writes Stopped. */
  lemma {:induction false} StopProgress(s: State, env: Env, preempted: bool, at: int)
    requires StopPass(s, env, preempted, at).ok
    ensures var o := StopPass(s, env, preempted, at);
            && Down(o.state.objects, Deployment) && Down(o.state.objects, Service) && o.state.tracked == []
            && (Down(s.objects, Deployment) && Down(s.objects, Service) ==>
                  o.result == Done && ShowsStopped(o.state.status))
  {
    hide StopPass, EnsureDeleted, EnsureAllAccessGone, Called, Worn, Down, AccessDown, ShowsStopped, Leaves, Same;
    StopEnds(s, env, preempted, at);
    StopObjects(s, env, preempted, at);
    StopDown(s, env);
    StopResult(s, env, preempted, at);
    var a, d := AfterAccess(s, env), AfterDeployment(s, env);
    EnsureAllAccessFacts(World(s.objects, 0), env, s.tracked, Claim);
    EnsureDeletedFacts(a, env, Deployment, Claim);
    EnsureDeletedFacts(d, env, Service, Claim);
    WornTrans(s.objects, a.objects, d.objects);
    WornDown(s.objects, a.objects, Deployment);
    WornDown(s.objects, d.objects, Service);
  }

  /** A stop pass meets no error when no call fails and no live object goes under its hands. */
  lemma {:induction false} OrderlyStop(s: State, env: Env, preempted: bool, at: int)
    requires Orderly(s.objects, env)
    ensures StopPass(s, env, preempted, at).ok
  {
    hide EnsureDeleted, EnsureAllAccessGone, Called, Updated, Worn, AccessDown, Same, Leaves, Down;
    var w := World(s.objects, 0);
    OrderlyAccess(s.objects, w, env, s.tracked);
    EnsureAllAccessFacts(w, env, s.tracked, Claim);
    OrderlyDelete(s.objects, AfterAccess(s, env), env, Deployment);
    OrderlyDelete(s.objects, AfterDeployment(s, env), env, Service);
  }

  /** Two orderly passes stop a workspace, whatever happens to its objects between them. */
  lemma {:induction false} StopsInTwo(s: State, env: Env, between: Answer, env': Env, preempted: bool, at: int, at': int)
    requires Orderly(s.objects, env)
    requires Orderly(Unsettled(StopPass(s, env, preempted, at).state, between).objects, env')
    ensures var o := StopPass(Unsettled(StopPass(s, env, preempted, at).state, between), env', preempted, at');
            o.result == Done && ShowsStopped(o.state.status) && o.state.tracked == []
  {
    hide StopPass, ShowsStopped, Orderly;
    var s1 := Unsettled(StopPass(s, env, preempted, at).state, between);
    OrderlyStop(s, env, preempted, at);
    StopProgress(s, env, preempted, at);
    OrderlyStop(s1, env', preempted, at');
    StopProgress(s1, env', preempted, at');
  }

  function Unsettled(s: State, a: Answer): State { s.(objects := Disturbed(s.objects, a)) }

  /** A first pass that finds both objects alive, and that nobody disturbs, ends in the error branch. */
  lemma {:induction false} FirstStopErrs(s: State, env: Env, preempted: bool, at: int)
    requires Deployment in s.objects && s.objects[Deployment].Alive? && Leaves(env, Deployment)
    requires Service in s.objects && s.objects[Service].Alive? && Leaves(env, Service)
    ensures var o := StopPass(s, env, preempted, at);
            o.result == Err && (o.update.Some? ==> o.update.value.Error?)
  {
    hide StopPass, EnsureAllAccessGone, Worn, AccessDown, Leaves;
    var a, d := AfterAccess(s, env), AfterDeployment(s, env);
    EnsureAllAccessFacts(World(s.objects, 0), env, s.tracked, Deployment);
    EnsureAllAccessFacts(World(s.objects, 0), env, s.tracked, Service);
    EnsureDeletedFacts(a, env, Deployment, Service);
    CalledFacts(a, env, Deployment);
    CalledFacts(d, env, Service);
    BothAliveErrs(s, env, preempted, at);
  }

  lemma {:induction false} BothAliveErrs(s: State, env: Env, preempted: bool, at: int)
    requires EnsureDeleted(AfterAccess(s, env), env, Deployment).ok ==> DeploymentRead(s, env) == Some(Alive)
    requires EnsureDeleted(AfterDeployment(s, env), env, Service).ok ==> ServiceRead(s, env) == Some(Alive)
    ensures var o := StopPass(s, env, preempted, at);
            o.result == Err && (o.update.Some? ==> o.update.value.Error?)
  {
    hide EnsureDeleted, EnsureAllAccessGone, Called, Updated;
  }

  // ---------------------------------------------------------------- deleting

  /** None of the three objects is left. */
  predicate NoneLeft(objects: Objects) { Deployment !in objects && Service !in objects && Claim !in objects }

  predicate AllDown(objects: Objects) { Down(objects, Deployment) && Down(objects, Service) && Down(objects, Claim) }

  lemma {:induction false} AllGoneFacts(w: World, env: Env, tracked: seq<string>)
    ensures var g := AllGone(w, env, tracked);
            && g.ok && Worn(w.objects, g.world.objects)
            && (g.gone ==> NoneLeft(g.world.objects) && tracked == [])
            && (g.calm && NoneLeft(w.objects) && tracked == [] ==> g.gone)
  {
    hide Called, Worn;
    var w1 := Called(w, env);
    var w2 := Called(w1, env);
    var w3 := Called(w2, env);
    CalledFacts(w, env, Claim);
    CalledFacts(w1, env, Claim);
    CalledFacts(w2, env, Claim);
    WornTrans(w.objects, w1.objects, w2.objects);
    WornTrans(w.objects, w2.objects, w3.objects);
    WornTrans(w1.objects, w2.objects, w3.objects);
    WornDown(w1.objects, w3.objects, Deployment);
    WornDown(w2.objects, w3.objects, Service);
    WornDown(w.objects, w1.objects, Deployment);
    WornDown(w.objects, w2.objects, Service);
    WornDown(w.objects, w3.objects, Claim);
  }

  lemma {:induction false} DeletesFacts(w: World, env: Env, tracked: seq<string>)
    ensures var a := EnsureAllAccessGone(w, env, tracked);
            var d := EnsureDeleted(a.world, env, Deployment);
            var v := EnsureDeleted(d.world, env, Service);
            var c := EnsureDeleted(v.world, env, Claim);
            && Worn(w.objects, d.world.objects) && Worn(w.objects, v.world.objects) && Worn(w.objects, c.world.objects)
            && (a.ok ==> AccessDown(c.world.objects, tracked))
            && (d.ok && v.ok && c.ok ==> AllDown(c.world.objects))
  {
    hide EnsureDeleted, EnsureAllAccessGone, Worn, Down, AccessDown, Leaves, Same;
    var a := EnsureAllAccessGone(w, env, tracked).world;
    var d := EnsureDeleted(a, env, Deployment).world;
    var v := EnsureDeleted(d, env, Service).world;
    var c := EnsureDeleted(v, env, Claim).world;
    EnsureAllAccessFacts(w, env, tracked, Claim);
    EnsureDeletedFacts(a, env, Deployment, Service);
    EnsureDeletedFacts(d, env, Service, Claim);
    EnsureDeletedFacts(v, env, Claim, Service);
    WornTrans(w.objects, a.objects, d.objects);
    WornTrans(w.objects, d.objects, v.objects);
    WornTrans(w.objects, v.objects, c.objects);
    WornTrans(d.objects, v.objects, c.objects);
    WornTrans(a.objects, d.objects, c.objects);
    WornDown(d.objects, c.objects, Deployment);
    WornDown(v.objects, c.objects, Service);
    if AccessDown(a.objects, tracked) {
      WornAccess(a.objects, c.objects, tracked);
    }
  }

  lemma {:induction false} CleanupFacts(w: World, env: Env, tracked: seq<string>)
    ensures var c := CleanupAllResources(w, env, tracked);
            && Worn(w.objects, c.world.objects)
            && (c.gone ==> c.ok && NoneLeft(c.world.objects) && AccessDown(c.world.objects, tracked))
            && (c.calm ==> c.ok && AllDown(c.world.objects) && AccessDown(c.world.objects, tracked))
            && (c.calm && NoneLeft(w.objects) ==> c.gone)
  {
    hide EnsureDeleted, EnsureAllAccessGone, AllGone, Worn, Down, AccessDown;
    var a := EnsureAllAccessGone(w, env, tracked);
    var d := EnsureDeleted(a.world, env, Deployment);
    var v := EnsureDeleted(d.world, env, Service);
    var e := EnsureDeleted(v.world, env, Claim).world;
    var left := if a.ok then [] else tracked;
    var end := AllGone(e, env, left).world.objects;
    DeletesFacts(w, env, tracked);
    AllGoneFacts(e, env, left);
    WornTrans(w.objects, e.objects, end);
    WornDown(e.objects, end, Deployment);
    WornDown(e.objects, end, Service);
    WornDown(e.objects, end, Claim);
    WornDown(w.objects, e.objects, Deployment);
    WornDown(w.objects, e.objects, Service);
    WornDown(w.objects, e.objects, Claim);
    if AccessDown(e.objects, tracked) {
      WornAccess(e.objects, end, tracked);
    }
    assert tracked == [] ==> AccessDown(end, tracked) by {
      assert tracked == [] ==> a.ok by { AccessEmpty(w, env); }
    }
  }

  lemma {:induction false} AccessEmpty(w: World, env: Env)
    ensures EnsureAllAccessGone(w, env, []).ok
  {
  }

  /** Whatever fails and whatever goes away half way: a deletion pass creates nothing, and removes the
      finalizer only when Deployment, Service and claim do not exist and no tracked access resource is
      alive. */
  lemma {:induction false} DeletionIsSafe(s: State, env: Env, at: int)
    ensures var o := DeletionPass(s, env, at);
            && Worn(s.objects, o.state.objects) && o.state.tracked == s.tracked && o.state.deleting == s.deleting
            && (s.finalizer && !o.state.finalizer ==>
                  && o.result == Done && NoneLeft(o.state.objects)
                  && AccessDown(o.state.objects, s.tracked))
            && (o.state.finalizer ==> s.finalizer)
  {
    hide CleanupAllResources, Called, Worn, AccessDown, Updated;
    var w := World(s.objects, 0);
    var w1 := Called(w, env);
    var c := CleanupAllResources(w1, env, s.tracked).world;
    var end := Called(c, env).objects;
    CalledFacts(w, env, Claim);
    CleanupFacts(w1, env, s.tracked);
    CalledFacts(c, env, Claim);
    WornTrans(s.objects, w1.objects, c.objects);
    WornTrans(s.objects, c.objects, end);
    assert Worn(s.objects, s.objects) by { WornSelf(s.objects); }
    WornDown(c.objects, end, Deployment);
    WornDown(c.objects, end, Service);
    WornDown(c.objects, end, Claim);
    if AccessDown(c.objects, s.tracked) {
      WornAccess(c.objects, end, s.tracked);
    }
  }

  lemma {:induction false} WornSelf(a: Objects)
    ensures Worn(a, a)
  {
  }

  /** A deletion pass without API errors leaves nothing alive, and removes the finalizer if nothing was
      left before it. */
  lemma {:induction false} DeletionProgress(s: State, env: Env, at: int)
    requires DeletionPass(s, env, at).ok && s.finalizer
    ensures var o := DeletionPass(s, env, at);
            && AllDown(o.state.objects) && AccessDown(o.state.objects, s.tracked)
            && (NoneLeft(s.objects) ==> !o.state.finalizer && o.result == Done)
            && (o.result == if o.state.finalizer then Requeue else Done)
            && o.update == Some(IsDeleting) && o.state.status == Updated(s.status, IsDeleting, at)
  {
    hide CleanupAllResources, Called, Worn, Down, AccessDown, Updated;
    var w := World(s.objects, 0);
    var w1 := Called(w, env);
    var c := CleanupAllResources(w1, env, s.tracked).world;
    var end := Called(c, env).objects;
    CalledFacts(w, env, Claim);
    CleanupFacts(w1, env, s.tracked);
    CalledFacts(c, env, Claim);
    WornDown(s.objects, w1.objects, Deployment);
    WornDown(s.objects, w1.objects, Service);
    WornDown(s.objects, w1.objects, Claim);
    WornDown(c.objects, end, Deployment);
    WornDown(c.objects, end, Service);
    WornDown(c.objects, end, Claim);
    WornAccess(c.objects, end, s.tracked);
  }

  /** How many of the three objects are left. */
  function Count(objects: Objects): nat {
    (if Deployment in objects then 1 else 0) + (if Service in objects then 1 else 0) + if Claim in objects then 1 else 0
  }

  /** What happens to the objects, then a deletion pass. */
  datatype Round = Round(before: Answer, env: Env, at: int)

  ghost function AfterRound(s: State, r: Round): Outcome { DeletionPass(Unsettled(s, r.before), r.env, r.at) }

  lemma {:induction false} OrderlyCleanup(start: Objects, w: World, env: Env, tracked: seq<string>)
    requires Orderly(start, env) && Worn(start, w.objects)
    ensures CleanupAllResources(w, env, tracked).calm
  {
    hide EnsureDeleted, EnsureAllAccessGone, Called, Worn, AccessDown, Same, Leaves, Down;
    var a := EnsureAllAccessGone(w, env, tracked).world;
    var d := EnsureDeleted(a, env, Deployment).world;
    var v := EnsureDeleted(d, env, Service).world;
    OrderlyAccess(start, w, env, tracked);
    EnsureAllAccessFacts(w, env, tracked, Claim);
    WornTrans(start, w.objects, a.objects);
    OrderlyDelete(start, a, env, Deployment);
    OrderlyDelete(start, d, env, Service);
    OrderlyDelete(start, v, env, Claim);
  }

  /** A deletion pass meets no error when no call fails and no live object goes under its hands. */
  lemma {:induction false} OrderlyDeletion(s: State, env: Env, at: int)
    requires Orderly(s.objects, env)
    ensures DeletionPass(s, env, at).ok
  {
    hide CleanupAllResources, Called, Updated, Worn, Down;
    var w := World(s.objects, 0);
    CalledFacts(w, env, Claim);
    OrderlyCleanup(s.objects, Called(w, env), env, s.tracked);
    CleanupFacts(Called(w, env), env, s.tracked);
  }

  /** Every pass is orderly, and of objects that are all terminating at least one goes between two. */
  ghost predicate Fair(s: State, rounds: seq<Round>)
    decreases |rounds|
  {
    rounds == [] ||
    (&& Orderly(Unsettled(s, rounds[0].before).objects, rounds[0].env)
     && (AllDown(s.objects) && !NoneLeft(s.objects) ==> Count(Unsettled(s, rounds[0].before).objects) < Count(s.objects))
     && Fair(AfterRound(s, rounds[0]).state, rounds[1..]))
  }

  ghost function AfterRounds(s: State, rounds: seq<Round>): State
    decreases |rounds|
  {
    if rounds == [] then s else AfterRounds(AfterRound(s, rounds[0]).state, rounds[1..])
  }

  lemma {:induction false} CountWorn(a: Objects, b: Objects)
    requires Worn(a, b)
    ensures Count(b) <= Count(a) && (AllDown(a) ==> AllDown(b))
  {
    hide Worn;
    WornDown(a, b, Deployment);
    WornDown(a, b, Service);
    WornDown(a, b, Claim);
  }

  lemma {:induction false} StaysGone(s: State, rounds: seq<Round>)
    requires !s.finalizer
    ensures !AfterRounds(s, rounds).finalizer
    decreases |rounds|
  {
    if rounds == [] {
    } else {
      StaysGone(AfterRound(s, rounds[0]).state, rounds[1..]);
    }
  }

  /** Once everything is terminating each fair round brings the end nearer. */
  lemma {:induction false} TerminatingEnds(s: State, rounds: seq<Round>)
    requires Fair(s, rounds) && AllDown(s.objects) && |rounds| > Count(s.objects)
    ensures !AfterRounds(s, rounds).finalizer
    decreases |rounds|
  {
    if !s.finalizer {
      StaysGone(s, rounds);
    } else {
      hide DeletionPass, Worn, AccessDown, Down, Orderly;
      var r := rounds[0];
      var s1 := Unsettled(s, r.before);
      var o := AfterRound(s, r);
      OrderlyDeletion(s1, r.env, r.at);
      DisturbedWorn(s.objects, r.before);
      CountWorn(s.objects, s1.objects);
      DeletionIsSafe(s1, r.env, r.at);
      CountWorn(s1.objects, o.state.objects);
      DeletionProgress(s1, r.env, r.at);
      if NoneLeft(s1.objects) {
        StaysGone(o.state, rounds[1..]);
      } else {
        TerminatingEnds(o.state, rounds[1..]);
      }
    }
  }

  lemma {:induction false} DisturbedWorn(objects: Objects, a: Answer)
    ensures Worn(objects, Disturbed(objects, a))
  {
  }

  /** Deletion reaches its end: however many objects are alive, two rounds more than there are objects
      remove the finalizer. */
  lemma {:induction false} DeletionEnds(s: State, rounds: seq<Round>)
    requires Fair(s, rounds) && |rounds| >= Count(s.objects) + 2
    ensures !AfterRounds(s, rounds).finalizer
  {
    if !s.finalizer {
      StaysGone(s, rounds);
    } else {
      hide DeletionPass, Worn, AccessDown, Down, Orderly;
      var r := rounds[0];
      var s1 := Unsettled(s, r.before);
      var o := AfterRound(s, r);
      OrderlyDeletion(s1, r.env, r.at);
      DisturbedWorn(s.objects, r.before);
      CountWorn(s.objects, s1.objects);
      DeletionIsSafe(s1, r.env, r.at);
      CountWorn(s1.objects, o.state.objects);
      DeletionProgress(s1, r.env, r.at);
      TerminatingEnds(o.state, rounds[1..]);
    }
  }
}
