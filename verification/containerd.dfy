/**
 * The containerd backend that modules/nodemanager/nodemanager.go and
 * modules/api/runtime/runtime.go drive, as abstract state: the images in the
 * order the image service lists them, the containers by name (image and
 * snapshot), and at most one task per container holding its processes by
 * name. Every call may fail for reasons outside the model (the daemon is
 * unreachable, the registry refuses a pull), which is modelled as a
 * nondeterministic `Unavailable` failure; a failed call changes nothing.
 * A ghost log records every call, its target and whether it succeeded.
 */
module Containerd {
  import opened Common

  newtype uint32 = x: int | 0 <= x < 0x1_0000_0000

  /** Why a backend call failed. */
  datatype Failure = NotFound | AlreadyExists | FailedPrecondition | Unavailable

  /** The backend calls, named after the client API the Go code uses. */
  datatype Op =
    | ImageServiceGet | ImageServiceList | ClientPull | ClientGetImage
    | ContainerServiceGet | ClientNewContainer | ClientLoadContainer | ContainerDelete
    | TaskServiceKill | TaskServiceDelete
    | ContainerNewTask | ContainerTask | TaskWait | TaskExec | TaskLoadProcess
    | ProcessStart | ProcessWait | ProcessKill

  /** One logged call: what was called, on which target, and whether it succeeded. */
  datatype Call = Call(op: Op, target: string, ok: bool)

  /** An image as the image service lists it. */
  datatype ImageRecord = ImageRecord(name: string)

  /** A container: the image it was created from and the snapshot holding its root file system. */
  datatype Container = Container(image: string, snapshot: string)

  /** An exec'd process of a task: its spec, its pid once started, and the signals sent to it. */
  datatype Process = Process(args: seq<string>, env: seq<string>, cwd: string, pid: uint32, started: bool, signals: seq<int>)

  /** The task of a container: its processes by exec id, and the signals sent to the whole task. */
  datatype Task = Task(processes: map<string, Process>, signals: seq<int>)

  datatype State = State(images: seq<ImageRecord>, containers: map<string, Container>, tasks: map<string, Task>)

  /** True when an image called `name` is listed. */
  predicate HasImage(images: seq<ImageRecord>, name: string)
  {
    exists i :: 0 <= i < |images| && images[i].name == name
  }

  /** The snapshot names in use by the containers. */
  function Snapshots(containers: map<string, Container>): (s: set<string>)
    ensures forall id :: id in containers ==> containers[id].snapshot in s
  {
    set id | id in containers :: containers[id].snapshot
  }

  /** No two containers share a snapshot. */
  ghost predicate SnapshotsDistinct(containers: map<string, Container>)
  {
    forall a, b :: a in containers && b in containers && a != b ==> containers[a].snapshot != containers[b].snapshot
  }

  /**
   * NewContainer refuses a snapshot in use, so the containers it can add keep
   * the snapshots distinct; removing a container keeps them distinct too.
   */
  lemma SnapshotsStayDistinct(containers: map<string, Container>, id: string, c: Container)
    requires SnapshotsDistinct(containers)
    ensures id !in containers && c.snapshot !in Snapshots(containers) ==> SnapshotsDistinct(containers[id := c])
    ensures SnapshotsDistinct(containers - {id})
  {
  }

  /** The state with the task of container `id` replaced by `t`. */
  function SetTask(s: State, id: string, t: Task): (r: State)
    ensures r.images == s.images && r.containers == s.containers
    ensures r.tasks == s.tasks[id := t]
  {
    s.(tasks := s.tasks[id := t])
  }

  /** The state with process `name` of the task of container `id` replaced by `p`. */
  function SetProcess(s: State, id: string, name: string, p: Process): (r: State)
    requires id in s.tasks
    ensures r.images == s.images && r.containers == s.containers && r.tasks.Keys == s.tasks.Keys
    ensures r.tasks[id].processes == s.tasks[id].processes[name := p] && r.tasks[id].signals == s.tasks[id].signals
  {
    SetTask(s, id, s.tasks[id].(processes := s.tasks[id].processes[name := p]))
  }

  /** The containerd client connection. */
  class Client {
    var state: State
    ghost var calls: seq<Call>

    /** The backend invariant: a task belongs to an existing container. */
    ghost predicate Valid()
      reads this
    {
      state.tasks.Keys <= state.containers.Keys
    }

    constructor (images: seq<ImageRecord>)
      ensures state == State(images, map[], map[]) && calls == [] && Valid()
    {
      state := State(images, map[], map[]);
      calls := [];
    }

    /** ImageService().Get: succeeds only for a listed image. */
    method LookupImage(name: string) returns (err: Option<Failure>)
      modifies this
      ensures state == old(state)
      ensures calls == old(calls) + [Call(ImageServiceGet, name, err.None?)]
      ensures err.None? ==> HasImage(state.images, name)
      ensures !HasImage(state.images, name) ==> err == Some(NotFound)
    {
      var transient: bool := *;
      if !HasImage(state.images, name) {
        err := Some(NotFound);
      } else if transient {
        err := Some(Unavailable);
      } else {
        err := None;
      }
      calls := calls + [Call(ImageServiceGet, name, err.None?)];
    }

    /** ImageService().List: every listed image, in order. */
    method ListImages() returns (images: seq<ImageRecord>, err: Option<Failure>)
      modifies this
      ensures state == old(state)
      ensures calls == old(calls) + [Call(ImageServiceList, "", err.None?)]
      ensures err.None? ==> images == state.images
      ensures err.Some? ==> images == [] && err == Some(Unavailable)
    {
      var transient: bool := *;
      if transient {
        images, err := [], Some(Unavailable);
      } else {
        images, err := state.images, None;
      }
      calls := calls + [Call(ImageServiceList, "", err.None?)];
    }

    /** Client.Pull with unpacking: afterwards the image is listed (appended when it was not). */
    method Pull(name: string) returns (err: Option<Failure>)
      requires Valid()
      modifies this
      ensures Valid()
      ensures calls == old(calls) + [Call(ClientPull, name, err.None?)]
      ensures err.Some? ==> state == old(state) && err == Some(Unavailable)
      ensures err.None? ==> state == old(state).(images := Pulled(old(state.images), name))
    {
      var transient: bool := *;
      if transient {
        err := Some(Unavailable);
      } else {
        state := state.(images := Pulled(state.images, name));
        err := None;
      }
      calls := calls + [Call(ClientPull, name, err.None?)];
    }

    /** Client.GetImage: succeeds only for a listed image. */
    method GetImage(name: string) returns (err: Option<Failure>)
      modifies this
      ensures state == old(state)
      ensures calls == old(calls) + [Call(ClientGetImage, name, err.None?)]
      ensures err.None? ==> HasImage(state.images, name)
      ensures !HasImage(state.images, name) ==> err == Some(NotFound)
    {
      var transient: bool := *;
      if !HasImage(state.images, name) {
        err := Some(NotFound);
      } else if transient {
        err := Some(Unavailable);
      } else {
        err := None;
      }
      calls := calls + [Call(ClientGetImage, name, err.None?)];
    }

    /** ContainerService().Get: the container record, when it exists. */
    method LookupContainer(id: string) returns (c: Option<Container>, err: Option<Failure>)
      modifies this
      ensures state == old(state)
      ensures calls == old(calls) + [Call(ContainerServiceGet, id, err.None?)]
      ensures err.None? <==> c.Some?
      ensures c.Some? ==> id in state.containers && c.value == state.containers[id]
      ensures id !in state.containers ==> err == Some(NotFound)
    {
      var transient: bool := *;
      if id !in state.containers {
        c, err := None, Some(NotFound);
      } else if transient {
        c, err := None, Some(Unavailable);
      } else {
        c, err := Some(state.containers[id]), None;
      }
      calls := calls + [Call(ContainerServiceGet, id, err.None?)];
    }

    /**
     * Client.NewContainer with a new snapshot of `image`: refused when the
     * name or the snapshot is already in use.
     */
    method NewContainer(id: string, snapshot: string, image: string) returns (err: Option<Failure>)
      requires Valid()
      modifies this
      ensures Valid()
      ensures calls == old(calls) + [Call(ClientNewContainer, id, err.None?)]
      ensures id in old(state.containers) || snapshot in Snapshots(old(state.containers)) ==> err == Some(AlreadyExists)
      ensures err.Some? ==> state == old(state)
      ensures err.None? ==>
        state == old(state).(containers := old(state.containers)[id := Container(image, snapshot)])
    {
      var transient: bool := *;
      if id in state.containers || snapshot in Snapshots(state.containers) {
        err := Some(AlreadyExists);
      } else if transient {
        err := Some(Unavailable);
      } else {
        state := state.(containers := state.containers[id := Container(image, snapshot)]);
        err := None;
      }
      calls := calls + [Call(ClientNewContainer, id, err.None?)];
    }

    /** Client.LoadContainer: a handle on an existing container. */
    method LoadContainer(id: string) returns (err: Option<Failure>)
      modifies this
      ensures state == old(state)
      ensures calls == old(calls) + [Call(ClientLoadContainer, id, err.None?)]
      ensures err.None? ==> id in state.containers
      ensures id !in state.containers ==> err == Some(NotFound)
    {
      var transient: bool := *;
      if id !in state.containers {
        err := Some(NotFound);
      } else if transient {
        err := Some(Unavailable);
      } else {
        err := None;
      }
      calls := calls + [Call(ClientLoadContainer, id, err.None?)];
    }

    /** Container.Delete with snapshot cleanup: refused while the container has a task. */
    method DeleteContainer(id: string) returns (err: Option<Failure>)
      requires Valid()
      modifies this
      ensures Valid()
      ensures calls == old(calls) + [Call(ContainerDelete, id, err.None?)]
      ensures id !in old(state.containers) ==> err == Some(NotFound)
      ensures id in old(state.tasks) ==> err.Some?
      ensures err.Some? ==> state == old(state)
      ensures err.None? ==> state == old(state).(containers := old(state.containers) - {id})
    {
      var transient: bool := *;
      if id !in state.containers {
        err := Some(NotFound);
      } else if id in state.tasks {
        err := Some(FailedPrecondition);
      } else if transient {
        err := Some(Unavailable);
      } else {
        state := state.(containers := state.containers - {id});
        err := None;
      }
      calls := calls + [Call(ContainerDelete, id, err.None?)];
    }

    /** TaskService().Kill of every process of the container's task. */
    method KillTask(id: string, signal: int) returns (err: Option<Failure>)
      requires Valid()
      modifies this
      ensures Valid()
      ensures calls == old(calls) + [Call(TaskServiceKill, id, err.None?)]
      ensures id !in old(state.tasks) ==> err == Some(NotFound)
      ensures err.Some? ==> state == old(state)
      ensures err.None? ==> (id in old(state.tasks) &&
        state == SetTask(old(state), id, old(state.tasks)[id].(signals := old(state.tasks)[id].signals + [signal])))
    {
      var transient: bool := *;
      if id !in state.tasks {
        err := Some(NotFound);
      } else if transient {
        err := Some(Unavailable);
      } else {
        var t := state.tasks[id];
        state := SetTask(state, id, t.(signals := t.signals + [signal]));
        err := None;
      }
      calls := calls + [Call(TaskServiceKill, id, err.None?)];
    }

    /** TaskService().Delete: removes the container's task. */
    method DeleteTask(id: string) returns (err: Option<Failure>)
      requires Valid()
      modifies this
      ensures Valid()
      ensures calls == old(calls) + [Call(TaskServiceDelete, id, err.None?)]
      ensures id !in old(state.tasks) ==> err == Some(NotFound)
      ensures err.Some? ==> state == old(state)
      ensures err.None? ==> state == old(state).(tasks := old(state.tasks) - {id})
    {
      var transient: bool := *;
      if id !in state.tasks {
        err := Some(NotFound);
      } else if transient {
        err := Some(Unavailable);
      } else {
        state := state.(tasks := state.tasks - {id});
        err := None;
      }
      calls := calls + [Call(TaskServiceDelete, id, err.None?)];
    }

    /** Container.NewTask: creates the container's (empty) task; refused if it already has one. */
    method NewTask(id: string) returns (err: Option<Failure>)
      requires Valid()
      modifies this
      ensures Valid()
      ensures calls == old(calls) + [Call(ContainerNewTask, id, err.None?)]
      ensures id !in old(state.containers) ==> err == Some(NotFound)
      ensures id in old(state.tasks) ==> err.Some?
      ensures err.Some? ==> state == old(state)
      ensures err.None? ==> state == old(state).(tasks := old(state.tasks)[id := Task(map[], [])])
    {
      var transient: bool := *;
      if id !in state.containers {
        err := Some(NotFound);
      } else if id in state.tasks {
        err := Some(AlreadyExists);
      } else if transient {
        err := Some(Unavailable);
      } else {
        state := state.(tasks := state.tasks[id := Task(map[], [])]);
        err := None;
      }
      calls := calls + [Call(ContainerNewTask, id, err.None?)];
    }

    /** Container.Task: attaches to the container's existing task. */
    method LoadTask(id: string) returns (err: Option<Failure>)
      modifies this
      ensures state == old(state)
      ensures calls == old(calls) + [Call(ContainerTask, id, err.None?)]
      ensures err.None? ==> id in state.tasks
      ensures id !in state.tasks ==> err == Some(NotFound)
    {
      var transient: bool := *;
      if id !in state.tasks {
        err := Some(NotFound);
      } else if transient {
        err := Some(Unavailable);
      } else {
        err := None;
      }
      calls := calls + [Call(ContainerTask, id, err.None?)];
    }

    /** Task.Wait: subscribes to the task's exit; it does not change the task. */
    method WaitTask(id: string) returns (err: Option<Failure>)
      modifies this
      ensures state == old(state)
      ensures calls == old(calls) + [Call(TaskWait, id, err.None?)]
      ensures id !in state.tasks ==> err == Some(NotFound)
    {
      var transient: bool := *;
      if id !in state.tasks {
        err := Some(NotFound);
      } else if transient {
        err := Some(Unavailable);
      } else {
        err := None;
      }
      calls := calls + [Call(TaskWait, id, err.None?)];
    }

    /** Task.Exec: adds a process, not yet started, under the exec id `name`. */
    method Exec(id: string, name: string, args: seq<string>, env: seq<string>, cwd: string) returns (err: Option<Failure>)
      requires Valid()
      modifies this
      ensures Valid()
      ensures calls == old(calls) + [Call(TaskExec, name, err.None?)]
      ensures id !in old(state.tasks) ==> err == Some(NotFound)
      ensures id in old(state.tasks) && name in old(state.tasks)[id].processes ==> err == Some(AlreadyExists)
      ensures err.Some? ==> state == old(state)
      ensures err.None? ==> (id in old(state.tasks) &&
        state == SetProcess(old(state), id, name, Process(args, env, cwd, 0, false, [])))
    {
      var transient: bool := *;
      if id !in state.tasks {
        err := Some(NotFound);
      } else if name in state.tasks[id].processes {
        err := Some(AlreadyExists);
      } else if transient {
        err := Some(Unavailable);
      } else {
        state := SetProcess(state, id, name, Process(args, env, cwd, 0, false, []));
        err := None;
      }
      calls := calls + [Call(TaskExec, name, err.None?)];
    }

    /** Task.LoadProcess: attaches to the process with exec id `name`. */
    method LoadProcess(id: string, name: string) returns (err: Option<Failure>)
      modifies this
      ensures state == old(state)
      ensures calls == old(calls) + [Call(TaskLoadProcess, name, err.None?)]
      ensures err.None? ==> id in state.tasks && name in state.tasks[id].processes
      ensures id !in state.tasks || name !in state.tasks[id].processes ==> err == Some(NotFound)
    {
      var transient: bool := *;
      if id !in state.tasks || name !in state.tasks[id].processes {
        err := Some(NotFound);
      } else if transient {
        err := Some(Unavailable);
      } else {
        err := None;
      }
      calls := calls + [Call(TaskLoadProcess, name, err.None?)];
    }

    /** Process.Start: the process runs and is given a pid by the system. */
    method StartProcess(id: string, name: string) returns (err: Option<Failure>)
      requires Valid()
      modifies this
      ensures Valid()
      ensures calls == old(calls) + [Call(ProcessStart, name, err.None?)]
      ensures id !in old(state.tasks) || name !in old(state.tasks)[id].processes ==> err == Some(NotFound)
      ensures err.Some? ==> state == old(state)
      ensures err.None? ==> (id in old(state.tasks) && name in old(state.tasks)[id].processes &&
        id in state.tasks && name in state.tasks[id].processes &&
        state == SetProcess(old(state), id, name,
          old(state.tasks)[id].processes[name].(pid := state.tasks[id].processes[name].pid, started := true)))
    {
      var transient: bool := *;
      if id !in state.tasks || name !in state.tasks[id].processes {
        err := Some(NotFound);
      } else if transient {
        err := Some(Unavailable);
      } else {
        var pid: uint32 := *;
        state := SetProcess(state, id, name, state.tasks[id].processes[name].(pid := pid, started := true));
        err := None;
      }
      calls := calls + [Call(ProcessStart, name, err.None?)];
    }

    /** Process.Wait: subscribes to the process's exit; it does not change the process. */
    method WaitProcess(id: string, name: string) returns (err: Option<Failure>)
      modifies this
      ensures state == old(state)
      ensures calls == old(calls) + [Call(ProcessWait, name, err.None?)]
      ensures id !in state.tasks || name !in state.tasks[id].processes ==> err == Some(NotFound)
    {
      var transient: bool := *;
      if id !in state.tasks || name !in state.tasks[id].processes {
        err := Some(NotFound);
      } else if transient {
        err := Some(Unavailable);
      } else {
        err := None;
      }
      calls := calls + [Call(ProcessWait, name, err.None?)];
    }

    /** Process.Pid: the pid of a process of a task (0 before it is started). */
    function Pid(id: string, name: string): (pid: uint32)
      reads this
      requires id in state.tasks && name in state.tasks[id].processes
    {
      state.tasks[id].processes[name].pid
    }

    /** Process.Kill: delivers `signal` to the process. */
    method KillProcess(id: string, name: string, signal: int) returns (err: Option<Failure>)
      requires Valid()
      modifies this
      ensures Valid()
      ensures calls == old(calls) + [Call(ProcessKill, name, err.None?)]
      ensures id !in old(state.tasks) || name !in old(state.tasks)[id].processes ==> err == Some(NotFound)
      ensures err.Some? ==> state == old(state)
      ensures err.None? ==> (id in old(state.tasks) && name in old(state.tasks)[id].processes &&
        state == Signalled(old(state), id, name, signal))
    {
      var transient: bool := *;
      if id !in state.tasks || name !in state.tasks[id].processes {
        err := Some(NotFound);
      } else if transient {
        err := Some(Unavailable);
      } else {
        state := Signalled(state, id, name, signal);
        err := None;
      }
      calls := calls + [Call(ProcessKill, name, err.None?)];
    }
  }

  /** Setting a process twice keeps only the second value. */
  lemma SetProcessTwice(s: State, id: string, name: string, p: Process, q: Process)
    requires id in s.tasks
    ensures SetProcess(SetProcess(s, id, name, p), id, name, q) == SetProcess(s, id, name, q)
  {
    var r := SetProcess(SetProcess(s, id, name, p), id, name, q);
    var r' := SetProcess(s, id, name, q);
    assert r.tasks[id] == r'.tasks[id];
    assert r.tasks == r'.tasks;
  }

  /** The state after `signal` was delivered to process `name` of task `id`. */
  function Signalled(s: State, id: string, name: string, signal: int): (r: State)
    requires id in s.tasks && name in s.tasks[id].processes
  {
    var p := s.tasks[id].processes[name];
    SetProcess(s, id, name, p.(signals := p.signals + [signal]))
  }

  /** The image list after a successful pull of `name`: unchanged when it was listed, else with it appended. */
  function Pulled(images: seq<ImageRecord>, name: string): (r: seq<ImageRecord>)
    ensures HasImage(r, name)
    ensures |r| == if HasImage(images, name) then |images| else |images| + 1
    ensures forall i :: 0 <= i < |images| ==> r[i] == images[i]
  {
    if HasImage(images, name) then images
    else
      assert (images + [ImageRecord(name)])[|images|].name == name;
      images + [ImageRecord(name)]
  }

  /** One step of a fixed sequence of backend calls: the call and its target. */
  datatype Step = Step(op: Op, target: string)

  /**
   * The calls `t` follow `steps` in order and stop at the first failure: every
   * call but the last succeeded, and the sequence ends early only because its
   * last call failed.
   */
  ghost predicate StoppedAtFirstFailure(t: seq<Call>, steps: seq<Step>)
  {
    && 1 <= |t| <= |steps|
    && (forall i :: 0 <= i < |t| ==> t[i].op == steps[i].op && t[i].target == steps[i].target)
    && (forall i :: 0 <= i < |t| - 1 ==> t[i].ok)
    && (|t| < |steps| ==> !t[|t| - 1].ok)
  }

  /** Every step was called and succeeded. */
  ghost predicate AllSucceeded(t: seq<Call>, steps: seq<Step>)
  {
    |t| == |steps| && forall i :: 0 <= i < |t| ==> t[i].ok
  }

  /**
   * The calls made by the first `n` steps when every one of them but the
   * last succeeded and the last one's result is `lastOk`.
   */
  function Taken(steps: seq<Step>, n: nat, lastOk: bool): (t: seq<Call>)
    requires n <= |steps|
  {
    seq(n, i requires 0 <= i < n => Call(steps[i].op, steps[i].target, i < n - 1 || lastOk))
  }

  /** The first step appended to a call log `log` is the log of one step taken. */
  lemma TakeFirst(log: seq<Call>, steps: seq<Step>, c: Call)
    requires 0 < |steps| && c.op == steps[0].op && c.target == steps[0].target
    ensures log + [c] == log + Taken(steps, 1, c.ok)
  {
    assert Taken(steps, 1, c.ok) == [c];
  }

  /** Taking step `n` after `n` successful steps extends the call log by that call. */
  lemma TakeNext(log: seq<Call>, steps: seq<Step>, n: nat, c: Call)
    requires n < |steps| && c.op == steps[n].op && c.target == steps[n].target
    ensures log + Taken(steps, n, true) + [c] == log + Taken(steps, n + 1, c.ok)
  {
    var t, t' := Taken(steps, n, true) + [c], Taken(steps, n + 1, c.ok);
    assert forall i :: 0 <= i < n + 1 ==> t[i] == t'[i];
    assert t == t';
  }

  /**
   * `t` is what a run of `steps` called: the steps in order, every call but
   * the last successful, ending early only at a failure; `ok` is the result
   * of the last call.
   */
  ghost predicate RanInOrder(t: seq<Call>, steps: seq<Step>, ok: bool)
  {
    && 1 <= |t| <= |steps|
    && (|t| < |steps| ==> !ok)
    && t == Taken(steps, |t|, ok)
  }

  /**
   * Such a run stopped at its first failure, and it succeeded as a whole
   * exactly when its last call did.
   */
  lemma RanInOrderStops(t: seq<Call>, steps: seq<Step>, ok: bool)
    requires RanInOrder(t, steps, ok)
    ensures StoppedAtFirstFailure(t, steps)
    ensures AllSucceeded(t, steps) <==> ok
    ensures t[|t| - 1].ok == ok
  {
    assert t[|t| - 1].ok == ok;
  }

  /** A run that stopped within `s1` is also a run of `s1 + s2`: the later steps are never taken. */
  lemma RanInOrderBefore(t: seq<Call>, s1: seq<Step>, s2: seq<Step>)
    requires RanInOrder(t, s1, false)
    ensures RanInOrder(t, s1 + s2, false)
  {
    var t' := Taken(s1 + s2, |t|, false);
    assert forall i :: 0 <= i < |t| ==> t'[i] == t[i];
  }

  /** A complete successful run of `s1` followed by a run of `s2` is a run of `s1 + s2`. */
  lemma RanInOrderThen(t1: seq<Call>, s1: seq<Step>, t2: seq<Call>, s2: seq<Step>, ok: bool)
    requires RanInOrder(t1, s1, true) && |t1| == |s1|
    requires RanInOrder(t2, s2, ok)
    ensures RanInOrder(t1 + t2, s1 + s2, ok)
  {
    var t, s := t1 + t2, s1 + s2;
    var t' := Taken(s, |t|, ok);
    forall i | 0 <= i < |t|
      ensures t'[i] == t[i]
    {
      if i < |t1| {
        assert t[i] == t1[i] && s[i] == s1[i];
      } else {
        assert t[i] == t2[i - |t1|] && s[i] == s2[i - |t1|];
      }
    }
  }
}
