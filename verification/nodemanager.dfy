/**
 * The node manager of modules/nodemanager/nodemanager.go: nodes are
 * containerd containers created from a runtime image, and tasks are
 * processes exec'd inside them. Each operation is a fixed sequence of
 * backend calls that gives up at the first failing one and reports its
 * error; without a client connection every operation fails (or answers
 * false) without a backend call.
 *
 * The step sequences are module-level methods on a client, because the
 * runtime plugin (modules/api/runtime/runtime.go) repeats them verbatim.
 */
module NodeManager {
  import opened Common
  import opened Containerd

  /** The error text of the node manager when it has no client (sic). */
  const ContainerdMissing: string := "Containerd available"

  /** The suffix of the snapshot NodeCreate creates for a node. */
  const SnapshotSuffix: string := "-snapshot"

  /** The signal the destroy sequence sends to the node's task. */
  const KillSignal: int := 9

  /** The errors an operation returns. */
  datatype Fault =
    | ClientMissing(message: string)         // errors.New(...) when there is no client
    | NodeAlreadyExists                      // errors.New("Node already exists")
    | Backend(op: Op, failure: Failure)      // the error of the failing backend call

  /** True when `err` is the error of a failed `op` call. */
  predicate FailedAt(err: Option<Fault>, op: Op)
  {
    err.Some? && err.value.Backend? && err.value.op == op
  }

  /** A device of the runtime specification; the operations never use it. */
  datatype Device = Device(path: string)

  /** Node: what a node is created from. Only Name and Runtime are used. */
  datatype Node = Node(
    name: string,
    runtime: string,
    env: seq<string>,
    devices: seq<Device>,
    caps: seq<string>,
    privileged: bool,
    gids: string)

  /** The node NodeLoad reports for container `id`: its name and image, every other field zero. */
  function LoadedNode(id: string, c: Container): (n: Node)
  {
    Node(id, c.image, [], [], [], false, "")
  }

  /** NodeTask: a process to run in a node; PID is written by NodeExec. */
  class NodeTask {
    var name: string
    var args: seq<string>
    var env: seq<string>
    var cwd: string
    var pid: uint32

    constructor (name: string, args: seq<string>, env: seq<string>, cwd: string)
      ensures this.name == name && this.args == args && this.env == env && this.cwd == cwd && pid == 0
    {
      this.name, this.args, this.env, this.cwd, this.pid := name, args, env, cwd, 0;
    }
  }

  // ---------------------------------------------------------------------------
  // The step sequences and what they leave behind
  // ---------------------------------------------------------------------------

  /** The image names of a listing, in order. */
  function Names(images: seq<ImageRecord>): (names: seq<string>)
  {
    seq(|images|, i requires 0 <= i < |images| => images[i].name)
  }

  /**
   * The calls and effect of creating container `name` from `image` with
   * snapshot `snapshot`: the image check, then a pull when the image is
   * missing or a get when it is present, then the container. A failed pull
   * or get returns before any container is created.
   */
  ghost predicate CreatedFromImage(name: string, image: string, snapshot: string,
                                   t: seq<Call>, err: Option<Fault>, before: State, after: State)
  {
    && |t| >= 2
    && t[0] == Call(ImageServiceGet, image, t[0].ok)
    && var fetch := if t[0].ok then ClientGetImage else ClientPull;
    && var resolved := if t[0].ok then before else before.(images := Pulled(before.images, image));
    && t[1] == Call(fetch, image, t[1].ok)
    && (!t[1].ok ==> |t| == 2 && FailedAt(err, fetch) && after == before)
    && (t[1].ok ==>
          && |t| == 3 && t[2] == Call(ClientNewContainer, name, t[2].ok)
          && (err.None? <==> t[2].ok)
          && (!t[2].ok ==> FailedAt(err, ClientNewContainer) && after == resolved)
          && (t[2].ok ==>
                && name !in before.containers && snapshot !in Snapshots(before.containers)
                && after == resolved.(containers := before.containers[name := Container(image, snapshot)])))
  }

  /**
   * The calls and effect of NodeCreate: the existence check, which refuses a
   * node whose container exists and changes nothing, then the creation from
   * the runtime image with snapshot `<name>-snapshot`.
   */
  ghost predicate NodeCreated(node: Node, t: seq<Call>, err: Option<Fault>, before: State, after: State)
  {
    && |t| >= 1 && t[0] == Call(ContainerServiceGet, node.name, t[0].ok)
    && (t[0].ok ==> t == [t[0]] && err == Some(NodeAlreadyExists) && after == before)
    && (!t[0].ok ==> CreatedFromImage(node.name, node.runtime, node.name + SnapshotSuffix, t[1..], err, before, after))
  }

  /** No container but `id` gains or loses a task, and every other task is as it was. */
  ghost predicate OtherTasksKept(id: string, before: State, after: State)
  {
    forall k :: k != id ==>
      && (k in after.tasks <==> k in before.tasks)
      && (k in before.tasks ==> after.tasks[k] == before.tasks[k])
  }

  /**
   * The calls and effect of destroying container `id`: load it, kill its task
   * with signal 9 and delete the task (both results ignored), then delete the
   * container. Only the load and the container delete decide the error.
   */
  ghost predicate Destroyed(id: string, t: seq<Call>, err: Option<Fault>, before: State, after: State)
  {
    && |t| >= 1 && t[0] == Call(ClientLoadContainer, id, t[0].ok)
    && (!t[0].ok ==> |t| == 1 && FailedAt(err, ClientLoadContainer) && after == before)
    && (t[0].ok ==>
          && id in before.containers
          && |t| == 4
          && t[1].op == TaskServiceKill && t[1].target == id
          && t[2].op == TaskServiceDelete && t[2].target == id
          && t[3] == Call(ContainerDelete, id, t[3].ok)
          && (err.None? <==> t[3].ok)
          && (!t[3].ok ==> FailedAt(err, ContainerDelete) && after.containers == before.containers))
    && after.images == before.images
    && OtherTasksKept(id, before, after)
    && (err.None? ==> after.containers == before.containers - {id} && after.tasks == before.tasks - {id})
  }

  /** The first half of an exec: load the container, create its task, wait on the task. */
  function TaskSteps(id: string): (steps: seq<Step>)
    ensures |steps| == 3 && steps[0] == Step(ClientLoadContainer, id) && steps[1] == Step(ContainerNewTask, id)
  {
    [Step(ClientLoadContainer, id), Step(ContainerNewTask, id), Step(TaskWait, id)]
  }

  /** The second half of an exec: exec the process, start it, wait on it. */
  function ProcessSteps(name: string): (steps: seq<Step>)
    ensures |steps| == 3 && steps[2] == Step(ProcessWait, name)
  {
    [Step(TaskExec, name), Step(ProcessStart, name), Step(ProcessWait, name)]
  }

  /** The steps of an exec, in order. */
  function ExecSteps(id: string, name: string): (steps: seq<Step>)
    ensures |steps| == 6 && steps[0] == Step(ClientLoadContainer, id) && steps[5] == Step(ProcessWait, name)
  {
    TaskSteps(id) + ProcessSteps(name)
  }

  /**
   * The calls and effect of running process `name` in container `id`: the
   * steps in order up to the first failure, whose error is returned, with no
   * cleanup. Once the process has started (even when the wait on it then
   * fails) it is the only process of the container's fresh task, and only a
   * complete run reports its pid. No other container's task changes.
   */
  ghost predicate Executed(id: string, name: string, args: seq<string>, env: seq<string>, cwd: string, pid: uint32,
                           t: seq<Call>, err: Option<Fault>, before: State, after: State)
  {
    && RanInOrder(t, ExecSteps(id, name), err.None?)
    && (err.Some? ==> FailedAt(err, t[|t| - 1].op))
    && after.images == before.images
    && after.containers == before.containers
    && (|t| <= 2 && err.Some? ==> after == before)
    && OtherTasksKept(id, before, after)
    && (|t| >= 2 && t[1].ok ==> id in after.tasks)
    && (2 <= |t| <= 4 && t[1].ok && err.Some? ==> after.tasks[id] == Task(map[], []))
    && (|t| == 5 && err.Some? ==> after.tasks[id] == Task(map[name := Process(args, env, cwd, 0, false, [])], []))
    && (|t| >= 5 && t[4].ok ==> StartedAlone(after.tasks[id], name, args, env, cwd))
    && (err.None? ==>
          && id in after.tasks
          && after.tasks[id] == Task(map[name := Process(args, env, cwd, pid, true, [])], []))
  }

  /** A fresh task holding only the started process `name` with the given spec, with no signal sent. */
  predicate StartedAlone(task: Task, name: string, args: seq<string>, env: seq<string>, cwd: string)
  {
    && name in task.processes
    && task == Task(map[name := Process(args, env, cwd, task.processes[name].pid, true, [])], [])
  }

  /** The steps of a signal: load the container, attach to its task, load the process by name, kill it. */
  function SignalSteps(id: string, name: string): (steps: seq<Step>)
    ensures |steps| == 4 && steps[2] == Step(TaskLoadProcess, name) && steps[3] == Step(ProcessKill, name)
  {
    [Step(ClientLoadContainer, id), Step(ContainerTask, id), Step(TaskLoadProcess, name), Step(ProcessKill, name)]
  }

  /**
   * The calls and effect of signalling process `name` of container `id`: the
   * steps in order up to the first failure, whose error is returned and which
   * changes nothing; on success only that process has received the signal.
   */
  ghost predicate SignalDelivered(id: string, name: string, signal: int,
                                  t: seq<Call>, err: Option<Fault>, before: State, after: State)
  {
    && RanInOrder(t, SignalSteps(id, name), err.None?)
    && (err.Some? ==> FailedAt(err, t[|t| - 1].op) && after == before)
    && (err.None? ==>
          && id in before.tasks && name in before.tasks[id].processes
          && after == Signalled(before, id, name, signal))
  }

  /** The image listing: one name per image, in the backend's order, copied into a fresh slice. */
  method ListNames(c: Client) returns (names: Option<seq<string>>, err: Option<Fault>)
    modifies c
    ensures names.Some? <==> err.None?
    ensures c.state == old(c.state)
    ensures c.calls == old(c.calls) + [Call(ImageServiceList, "", err.None?)]
    ensures err.Some? ==> FailedAt(err, ImageServiceList)
    ensures names.Some? ==>
      && |names.value| == |c.state.images|
      && forall i :: 0 <= i < |names.value| ==> names.value[i] == c.state.images[i].name
  {
    var images, e := c.ListImages();
    if e.Some? {
      return None, Some(Backend(ImageServiceList, e.value));
    }
    var result := new string[|images|];
    for i := 0 to |images|
      modifies result
      invariant forall j :: 0 <= j < i ==> result[j] == images[j].name
    {
      result[i] := images[i].name;
    }
    names, err := Some(result[..]), None;
  }

  /** The creation sequence shared by NodeCreate and the runtime plugin's RuntimeCreate. */
  method CreateFromImage(c: Client, name: string, image: string, snapshot: string)
    returns (err: Option<Fault>, ghost trace: seq<Call>)
    requires c.Valid()
    modifies c
    ensures c.Valid()
    ensures c.calls == old(c.calls) + trace
    ensures CreatedFromImage(name, image, snapshot, trace, err, old(c.state), c.state)
  {
    var present := c.LookupImage(image);
    var fetch := if present.None? then ClientGetImage else ClientPull;
    var e;
    if present.Some? {
      e := c.Pull(image);
    } else {
      e := c.GetImage(image);
    }
    trace := [Call(ImageServiceGet, image, present.None?), Call(fetch, image, e.None?)];
    if e.Some? {
      err := Some(Backend(fetch, e.value));
      return;
    }
    // the container spec is built from the image configuration only
    e := c.NewContainer(name, snapshot, image);
    trace := trace + [Call(ClientNewContainer, name, e.None?)];
    err := if e.Some? then Some(Backend(ClientNewContainer, e.value)) else None;
  }

  /** The destroy sequence shared by NodeDestroy and RuntimeDestroy. */
  method DestroyContainer(c: Client, id: string) returns (err: Option<Fault>, ghost trace: seq<Call>)
    requires c.Valid()
    modifies c
    ensures c.Valid()
    ensures c.calls == old(c.calls) + trace
    ensures Destroyed(id, trace, err, old(c.state), c.state)
  {
    var e := c.LoadContainer(id);
    trace := [Call(ClientLoadContainer, id, e.None?)];
    if e.Some? {
      err := Some(Backend(ClientLoadContainer, e.value));
      return;
    }
    var killed := c.KillTask(id, KillSignal);
    var deleted := c.DeleteTask(id);
    e := c.DeleteContainer(id);
    trace := trace + [Call(TaskServiceKill, id, killed.None?), Call(TaskServiceDelete, id, deleted.None?),
                      Call(ContainerDelete, id, e.None?)];
    err := if e.Some? then Some(Backend(ContainerDelete, e.value)) else None;
  }

  /**
   * The first half of an exec: load the container, create its task and
   * wait on it; a new task has no processes and has received no signal.
   */
  method CreateTask(c: Client, id: string) returns (err: Option<Fault>, ghost trace: seq<Call>)
    requires c.Valid()
    modifies c
    ensures c.Valid()
    ensures c.calls == old(c.calls) + trace
    ensures RanInOrder(trace, TaskSteps(id), err.None?)
    ensures err.Some? ==> FailedAt(err, trace[|trace| - 1].op)
    ensures c.state.images == old(c.state.images) && c.state.containers == old(c.state.containers)
    ensures |trace| <= 2 && err.Some? ==> c.state == old(c.state)
    ensures |trace| >= 2 && trace[1].ok ==> c.state.tasks == old(c.state.tasks)[id := Task(map[], [])]
  {
    ghost var steps := TaskSteps(id);
    ghost var log := c.calls;
    var op := ClientLoadContainer;
    var e := c.LoadContainer(id);
    TakeFirst(log, steps, Call(op, id, e.None?));
    ghost var n := 1;
    if e.None? {
      op := ContainerNewTask;
      e := c.NewTask(id);
      TakeNext(log, steps, n, Call(op, id, e.None?));
      n := n + 1;
      if e.None? {
        op := TaskWait;
        e := c.WaitTask(id);
        TakeNext(log, steps, n, Call(op, id, e.None?));
        n := n + 1;
      }
    }
    trace := Taken(steps, n, e.None?);
    err := if e.Some? then Some(Backend(op, e.value)) else None;
  }

  /**
   * The second half of an exec: exec process `name` in task `id`, start it
   * and wait on it; on success it reports the pid of the started process.
   */
  method RunProcess(c: Client, id: string, name: string, args: seq<string>, env: seq<string>, cwd: string)
    returns (err: Option<Fault>, pid: uint32, ghost trace: seq<Call>)
    requires c.Valid()
    modifies c
    ensures c.Valid()
    ensures c.calls == old(c.calls) + trace
    ensures RanInOrder(trace, ProcessSteps(name), err.None?)
    ensures err.Some? ==> FailedAt(err, trace[|trace| - 1].op)
    ensures c.state.images == old(c.state.images) && c.state.containers == old(c.state.containers)
    ensures c.state.tasks.Keys == old(c.state.tasks.Keys)
    ensures OtherTasksKept(id, old(c.state), c.state)
    ensures |trace| == 1 && err.Some? ==> c.state == old(c.state)
    ensures |trace| == 2 && err.Some? ==>
      && id in old(c.state.tasks)
      && c.state == SetProcess(old(c.state), id, name, Process(args, env, cwd, 0, false, []))
    ensures |trace| >= 2 && trace[1].ok ==>
      && id in old(c.state.tasks) && name !in old(c.state.tasks)[id].processes
      && id in c.state.tasks && name in c.state.tasks[id].processes
      && c.state == SetProcess(old(c.state), id, name, Process(args, env, cwd, c.state.tasks[id].processes[name].pid, true, []))
    ensures err.None? ==>
      && id in old(c.state.tasks) && name !in old(c.state.tasks)[id].processes
      && c.state == SetProcess(old(c.state), id, name, Process(args, env, cwd, pid, true, []))
  {
    ghost var steps := ProcessSteps(name);
    ghost var s0 := c.state;
    ghost var log := c.calls;
    pid := 0;
    var op := TaskExec;
    var e := c.Exec(id, name, args, env, cwd);
    TakeFirst(log, steps, Call(op, name, e.None?));
    ghost var n := 1;
    if e.None? {
      op := ProcessStart;
      e := c.StartProcess(id, name);
      TakeNext(log, steps, n, Call(op, name, e.None?));
      n := n + 1;
      if e.None? {
        SetProcessTwice(s0, id, name, Process(args, env, cwd, 0, false, []),
                        Process(args, env, cwd, c.Pid(id, name), true, []));
        op := ProcessWait;
        e := c.WaitProcess(id, name);
        TakeNext(log, steps, n, Call(op, name, e.None?));
        n := n + 1;
        if e.None? {
          pid := c.Pid(id, name);
        }
      }
    }
    trace := Taken(steps, n, e.None?);
    err := if e.Some? then Some(Backend(op, e.value)) else None;
  }

  /** The exec sequence shared by NodeExec and RuntimeExec: the task, then the process. */
  method ExecTask(c: Client, id: string, name: string, args: seq<string>, env: seq<string>, cwd: string)
    returns (err: Option<Fault>, pid: uint32, ghost trace: seq<Call>)
    requires c.Valid()
    modifies c
    ensures c.Valid()
    ensures c.calls == old(c.calls) + trace
    ensures Executed(id, name, args, env, cwd, pid, trace, err, old(c.state), c.state)
  {
    ghost var t1, t2;
    err, t1 := CreateTask(c, id);
    if err.Some? {
      pid, trace := 0, t1;
      RanInOrderBefore(t1, TaskSteps(id), ProcessSteps(name));
      return;
    }
    err, pid, t2 := RunProcess(c, id, name, args, env, cwd);
    trace := t1 + t2;
    RanInOrderThen(t1, TaskSteps(id), t2, ProcessSteps(name), err.None?);
  }

  /** The signal sequence shared by NodeSignal and RuntimeKill: the process is found by name. */
  method SignalProcess(c: Client, id: string, name: string, signal: int) returns (err: Option<Fault>, ghost trace: seq<Call>)
    requires c.Valid()
    modifies c
    ensures c.Valid()
    ensures c.calls == old(c.calls) + trace
    ensures SignalDelivered(id, name, signal, trace, err, old(c.state), c.state)
  {
    ghost var steps := SignalSteps(id, name);
    ghost var log := c.calls;
    var op := ClientLoadContainer;
    var e := c.LoadContainer(id);
    TakeFirst(log, steps, Call(op, id, e.None?));
    ghost var n := 1;
    if e.None? {
      op := ContainerTask;
      e := c.LoadTask(id);
      TakeNext(log, steps, n, Call(op, id, e.None?));
      n := n + 1;
      if e.None? {
        op := TaskLoadProcess;
        e := c.LoadProcess(id, name);
        TakeNext(log, steps, n, Call(op, name, e.None?));
        n := n + 1;
        if e.None? {
          op := ProcessKill;
          e := c.KillProcess(id, name, signal);
          TakeNext(log, steps, n, Call(op, name, e.None?));
          n := n + 1;
        }
      }
    }
    trace := Taken(steps, n, e.None?);
    err := if e.Some? then Some(Backend(op, e.value)) else None;
  }

  // ---------------------------------------------------------------------------
  // NodeManager
  // ---------------------------------------------------------------------------

  /** NodeManager, reduced to its containerd client (null when the connection failed). */
  class NodeManager {
    var client: Client?

    constructor (client: Client?)
      ensures this.client == client
    {
      this.client := client;
    }

    /** RuntimeExists: whether the image service knows the image; false without a client. */
    method RuntimeExists(name: string) returns (exists_: bool)
      modifies client
      ensures client == null ==> !exists_
      ensures client != null ==>
        && client.state == old(client.state)
        && client.calls == old(client.calls) + [Call(ImageServiceGet, name, exists_)]
        && (exists_ ==> HasImage(client.state.images, name))
    {
      if client == null {
        return false;
      }
      var err := client.LookupImage(name);
      exists_ := err.None?;
    }

    /** RuntimePull: pulls and unpacks the image. */
    method RuntimePull(name: string) returns (err: Option<Fault>)
      requires client != null ==> client.Valid()
      modifies client
      ensures client != null ==> client.Valid()
      ensures client == null ==> err == Some(ClientMissing(ContainerdMissing))
      ensures client != null ==>
        && client.calls == old(client.calls) + [Call(ClientPull, name, err.None?)]
        && (err.Some? ==> FailedAt(err, ClientPull) && client.state == old(client.state))
        && (err.None? ==> client.state == old(client.state).(images := Pulled(old(client.state.images), name)))
    {
      if client == null {
        return Some(ClientMissing(ContainerdMissing));
      }
      var e := client.Pull(name);
      err := if e.Some? then Some(Backend(ClientPull, e.value)) else None;
    }

    /** RuntimeList: the names of the images, one per image and in the backend's order. */
    method RuntimeList() returns (names: Option<seq<string>>, err: Option<Fault>)
      modifies client
      ensures names.Some? <==> err.None?
      ensures client == null ==> err == Some(ClientMissing(ContainerdMissing))
      ensures client != null ==>
        && client.state == old(client.state)
        && client.calls == old(client.calls) + [Call(ImageServiceList, "", err.None?)]
        && (err.Some? ==> FailedAt(err, ImageServiceList))
        && (names.Some? ==> names.value == Names(client.state.images))
    {
      if client == null {
        return None, Some(ClientMissing(ContainerdMissing));
      }
      names, err := ListNames(client);
    }

    /**
     * NodeCreate: refuses a node whose container exists, makes sure the
     * runtime image is present (pulling it only when the image check
     * fails), then creates the container `node.Name` from it with snapshot
     * `node.Name + "-snapshot"`.
     */
    method NodeCreate(node: Node) returns (err: Option<Fault>, ghost trace: seq<Call>)
      requires client != null ==> client.Valid()
      modifies client
      ensures client != null ==> client.Valid()
      ensures client == null ==> err == Some(ClientMissing(ContainerdMissing)) && trace == []
      ensures client != null ==>
        && client.calls == old(client.calls) + trace
        && NodeCreated(node, trace, err, old(client.state), client.state)
    {
      if client == null {
        err, trace := Some(ClientMissing(ContainerdMissing)), [];
        return;
      }
      var exists_ := NodeExists(node.name);
      if exists_ {
        err, trace := Some(NodeAlreadyExists), [Call(ContainerServiceGet, node.name, true)];
        return;
      }
      ghost var t;
      err, t := CreateFromImage(client, node.name, node.runtime, node.name + SnapshotSuffix);
      trace := [Call(ContainerServiceGet, node.name, false)] + t;
      assert trace[1..] == t;
    }

    /**
     * NodeDestroy: loads the container, kills its task with signal 9 and
     * deletes the task (both errors ignored), then deletes the container
     * with its snapshot.
     */
    method NodeDestroy(node: Node) returns (err: Option<Fault>, ghost trace: seq<Call>)
      requires client != null ==> client.Valid()
      modifies client
      ensures client != null ==> client.Valid()
      ensures client == null ==> err == Some(ClientMissing(ContainerdMissing)) && trace == []
      ensures client != null ==>
        && client.calls == old(client.calls) + trace
        && Destroyed(node.name, trace, err, old(client.state), client.state)
    {
      if client == null {
        err, trace := Some(ClientMissing(ContainerdMissing)), [];
        return;
      }
      err, trace := DestroyContainer(client, node.name);
    }

    /** NodeExists: whether the container service knows the container; false without a client. */
    method NodeExists(name: string) returns (exists_: bool)
      modifies client
      ensures client == null ==> !exists_
      ensures client != null ==>
        && client.state == old(client.state)
        && client.calls == old(client.calls) + [Call(ContainerServiceGet, name, exists_)]
        && (exists_ ==> name in client.state.containers)
    {
      if client == null {
        return false;
      }
      var c, err := client.LookupContainer(name);
      exists_ := err.None?;
    }

    /** NodeLoad: the node of an existing container, with its name and image only. */
    method NodeLoad(name: string) returns (node: Option<Node>, err: Option<Fault>)
      modifies client
      ensures node.Some? <==> err.None?
      ensures client == null ==> err == Some(ClientMissing(ContainerdMissing))
      ensures client != null ==>
        && client.state == old(client.state)
        && client.calls == old(client.calls) + [Call(ContainerServiceGet, name, err.None?)]
        && (err.Some? ==> FailedAt(err, ContainerServiceGet))
        && (node.Some? ==>
              && name in client.state.containers
              && node.value == Node(name, client.state.containers[name].image, [], [], [], false, ""))
    {
      if client == null {
        return None, Some(ClientMissing(ContainerdMissing));
      }
      var c, e := client.LookupContainer(name);
      if e.Some? {
        return None, Some(Backend(ContainerServiceGet, e.value));
      }
      node, err := Some(LoadedNode(name, c.value)), None;
    }

    /**
     * NodeExec: runs `task` in the node and, only when every step succeeds,
     * records the pid of the started process in `task.PID`. The first
     * failing step's error is returned and nothing is cleaned up.
     */
    method NodeExec(node: Node, task: NodeTask) returns (err: Option<Fault>, ghost trace: seq<Call>)
      requires client != null ==> client.Valid()
      modifies client, task
      ensures client != null ==> client.Valid()
      ensures task.name == old(task.name) && task.args == old(task.args) && task.env == old(task.env) && task.cwd == old(task.cwd)
      ensures err.Some? ==> task.pid == old(task.pid)
      ensures client == null ==> err == Some(ClientMissing(ContainerdMissing)) && trace == []
      ensures client != null ==>
        && client.calls == old(client.calls) + trace
        && Executed(node.name, task.name, task.args, task.env, task.cwd, task.pid, trace, err, old(client.state), client.state)
    {
      if client == null {
        err, trace := Some(ClientMissing(ContainerdMissing)), [];
        return;
      }
      var pid;
      err, pid, trace := ExecTask(client, node.name, task.name, task.args, task.env, task.cwd);
      if err.None? {
        task.pid := pid;
      }
    }

    /**
     * NodeSignal: sends `signal` to the process named `task.Name` in the
     * node's task (resolved by name on every call, never by pid), stopping
     * at the first failing step.
     */
    method NodeSignal(node: Node, task: NodeTask, signal: int) returns (err: Option<Fault>, ghost trace: seq<Call>)
      requires client != null ==> client.Valid()
      modifies client
      ensures client != null ==> client.Valid()
      ensures client == null ==> err == Some(ClientMissing(ContainerdMissing)) && trace == []
      ensures client != null ==>
        && client.calls == old(client.calls) + trace
        && SignalDelivered(node.name, task.name, signal, trace, err, old(client.state), client.state)
    {
      if client == null {
        err, trace := Some(ClientMissing(ContainerdMissing)), [];
        return;
      }
      err, trace := SignalProcess(client, node.name, task.name, signal);
    }
  }

  // ---------------------------------------------------------------------------
  // Properties of the sequences
  // ---------------------------------------------------------------------------

  /** The image listing has one name per image, each the name of the image at the same position. */
  lemma NamesOfImages(images: seq<ImageRecord>)
    ensures |Names(images)| == |images|
    ensures forall i :: 0 <= i < |images| ==> Names(images)[i] == images[i].name
  {
  }

  /**
   * NodeCreate changes no image, container or snapshot when the node
   * exists; it adds exactly one container, `node.Name` with snapshot
   * `node.Name + "-snapshot"` from the runtime image, on success and none on
   * failure; and a pull happens only after the image check failed.
   */
  lemma {:induction false} NodeCreateEffects(node: Node, t: seq<Call>, err: Option<Fault>, before: State, after: State)
    requires NodeCreated(node, t, err, before, after)
    ensures t[0].ok ==> err == Some(NodeAlreadyExists) && after == before
    ensures err.None? ==>
      && node.name !in before.containers
      && after.containers == before.containers[node.name := Container(node.runtime, node.name + SnapshotSuffix)]
      && after.tasks == before.tasks
    ensures err.Some? ==> after.containers == before.containers
    ensures forall i :: 0 <= i < |t| && t[i].op == ClientPull ==> i == 2 && !t[1].ok
  {
    if !t[0].ok {
      var r := t[1..];
      assert CreatedFromImage(node.name, node.runtime, node.name + SnapshotSuffix, r, err, before, after);
      forall i | 0 <= i < |t| && t[i].op == ClientPull ensures i == 2 && !t[1].ok {
        assert t[i] == r[i - 1] by { assert i >= 1; }
      }
    }
  }

  /**
   * Creating from an image keeps the backend's snapshots distinct, because
   * the container is created only under a name and a snapshot not in use;
   * on success the new container is the one asked for and no task changed.
   */
  lemma {:induction false} CreateKeepsSnapshotsDistinct(name: string, image: string, snapshot: string,
                                                        t: seq<Call>, err: Option<Fault>, before: State, after: State)
    requires CreatedFromImage(name, image, snapshot, t, err, before, after)
    requires SnapshotsDistinct(before.containers)
    ensures SnapshotsDistinct(after.containers)
    ensures err.None? ==> after.containers == before.containers[name := Container(image, snapshot)] && after.tasks == before.tasks
    ensures err.Some? ==> after.containers == before.containers
  {
    if err.None? {
      SnapshotsStayDistinct(before.containers, name, Container(image, snapshot));
    }
  }

  /**
   * Destroying a container fails when it does not exist; on success neither
   * the container nor its task is left, and the snapshots stay distinct.
   */
  lemma {:induction false} DestroyRemovesContainer(id: string, t: seq<Call>, err: Option<Fault>, before: State, after: State)
    requires Destroyed(id, t, err, before, after)
    requires SnapshotsDistinct(before.containers)
    ensures id !in before.containers ==> FailedAt(err, ClientLoadContainer)
    ensures err.None? ==> id !in after.containers && id !in after.tasks
    ensures SnapshotsDistinct(after.containers)
  {
    SnapshotsStayDistinct(before.containers, id, Container("", ""));
  }

  /**
   * Round trip: after a successful NodeCreate, the node NodeLoad reports for
   * the same name carries the node's name and runtime, and nothing else.
   */
  lemma {:induction false} CreateThenLoad(node: Node, t: seq<Call>, before: State, after: State)
    requires NodeCreated(node, t, None, before, after)
    ensures node.name in after.containers
    ensures after.containers[node.name].snapshot == node.name + SnapshotSuffix
    ensures LoadedNode(node.name, after.containers[node.name]) ==
      node.(env := [], devices := [], caps := [], privileged := false, gids := "")
  {
    NodeCreateEffects(node, t, None, before, after);
  }

  /**
   * An exec stops at its first failure, whose error it returns; the pid is
   * reported only when all six steps ran and succeeded.
   */
  lemma {:induction false} ExecStopsAtFirstFailure(id: string, name: string, args: seq<string>, env: seq<string>, cwd: string,
                                                   pid: uint32, t: seq<Call>, err: Option<Fault>, before: State, after: State)
    requires Executed(id, name, args, env, cwd, pid, t, err, before, after)
    ensures StoppedAtFirstFailure(t, ExecSteps(id, name))
    ensures err.None? <==> AllSucceeded(t, ExecSteps(id, name))
    ensures err.Some? ==> !t[|t| - 1].ok && FailedAt(err, t[|t| - 1].op)
  {
    RanInOrderStops(t, ExecSteps(id, name), err.None?);
  }

  /** A signal stops at its first failure, whose error it returns, and it always addresses the process by name. */
  lemma {:induction false} SignalStopsAtFirstFailure(id: string, name: string, signal: int,
                                                     t: seq<Call>, err: Option<Fault>, before: State, after: State)
    requires SignalDelivered(id, name, signal, t, err, before, after)
    ensures StoppedAtFirstFailure(t, SignalSteps(id, name))
    ensures err.None? <==> AllSucceeded(t, SignalSteps(id, name))
    ensures forall i :: 2 <= i < |t| ==> t[i].target == name
  {
    RanInOrderStops(t, SignalSteps(id, name), err.None?);
  }

  /** The package-level `nodeManager` guarded by `nodeManagerSync`. */
  class NodePackage {
    var nodeManager: NodeManager?

    constructor ()
      ensures nodeManager == null
    {
      nodeManager := null;
    }

    /**
     * GetNodeManager: on the first call, builds the manager with the client
     * the connection attempt gave (null when it failed); afterwards returns
     * that same manager, whatever the attempt would give.
     */
    method GetNodeManager(connection: Client?) returns (m: NodeManager)
      modifies this
      ensures nodeManager == m
      ensures old(nodeManager) != null ==> m == old(nodeManager)
      ensures old(nodeManager) == null ==> fresh(m) && m.client == connection
    {
      if nodeManager == null {
        nodeManager := new NodeManager(connection);
      }
      m := nodeManager;
    }
  }
}
