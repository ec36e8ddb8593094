/**
 * The runtime plugin of modules/api/runtime/runtime.go: an API module whose
 * operations drive the same containerd sequences as the node manager, on a
 * package-level client set by Initialize. Its errors without a client read
 * "No client available" (ImagePull, ImageList, RuntimeDestroy) or "Client
 * not available" (RuntimeExec, RuntimeKill); RuntimeCreate has no such
 * guard and dereferences the missing client.
 */
module RuntimePlugin {
  import opened Common
  import opened Containerd
  import opened NodeManager

  const NoClient: string := "No client available"
  const ClientUnavailable: string := "Client not available"

  /** What the module reports through Name, Version, Info and Help (for any action). */
  const ModuleName: string := "Runtime Module"
  const ModuleVersion: string := "0.0.1"
  const ModuleInfo: string := "Controls the creation of execution runtimes"
  const ModuleHelp: string := "Not Implemented yet"

  /** RuntimeInfo: a runtime to create. Only Name, Runtime and SnapshotName are used. */
  datatype RuntimeInfo = RuntimeInfo(
    name: string,
    runtime: string,
    env: seq<string>,
    devices: seq<Device>,
    caps: seq<string>,
    privileged: bool,
    gids: string,
    snapshotName: string)

  /** TaskInfo: a process to run in a runtime; PID is written by RuntimeExec. */
  class TaskInfo {
    var name: string
    var args: seq<string>
    var env: seq<string>
    var cwd: string
    var pid: uint32

    constructor (name: string, args: seq<string>, env: seq<string>, cwd: string)
      ensures this.name == name && this.args == args && this.env == env && this.cwd == cwd && pid == 0
    {
      this.name, this.args, this.env, this.cwd, this.pid := name, args, env, cwd, 0;
    }
  }

  /** What RuntimeCreate ends with: the container id, an error, or a nil-pointer panic. */
  datatype Creation = Created(id: string) | CreateFailed(fault: Fault) | NilClientPanic

  /** The error a creation returned, when it returned. */
  function CreationError(r: Creation): (err: Option<Fault>)
  {
    if r.CreateFailed? then Some(r.fault) else None
  }

  /** The runtime module, reduced to the package-level client it works on. */
  class RuntimeModule {
    var client: Client?

    constructor ()
      ensures client == null
    {
      client := null;
    }

    /**
     * Initialize: keeps whatever the connection attempt gave (null when it
     * failed) and reports success either way.
     */
    method Initialize(connection: Client?) returns (err: Option<Fault>)
      modifies this
      ensures client == connection
      ensures err == None
    {
      client := connection;
      err := None;
    }

    /** HandleRequest: returns nil without writing anything. */
    function HandleRequest(req: Request): (o: Outcome)
      ensures o == Silent
    {
      Silent
    }

    /** ImageExists: whether the image service knows the image; false without a client. */
    method ImageExists(name: string) returns (exists_: bool)
      modifies client
      ensures client == null ==> !exists_
      ensures client != null ==>
        && client.state == old(client.state)
        && client.calls == old(client.calls) + [Call(ImageServiceGet, name, exists_)]
        && (exists_ ==> HasImage(client.state.images, name))
    {
      if client == null {
        return false;
      }
      var err := client.LookupImage(name);
      exists_ := err.None?;
    }

    /** ImagePull: pulls and unpacks the image. */
    method ImagePull(name: string) returns (err: Option<Fault>)
      requires client != null ==> client.Valid()
      modifies client
      ensures client != null ==> client.Valid()
      ensures client == null ==> err == Some(ClientMissing(NoClient))
      ensures client != null ==>
        && client.calls == old(client.calls) + [Call(ClientPull, name, err.None?)]
        && (err.Some? ==> FailedAt(err, ClientPull) && client.state == old(client.state))
        && (err.None? ==> client.state == old(client.state).(images := Pulled(old(client.state.images), name)))
    {
      if client == null {
        return Some(ClientMissing(NoClient));
      }
      var e := client.Pull(name);
      err := if e.Some? then Some(Backend(ClientPull, e.value)) else None;
    }

    /** ImageList: the names of the images, one per image and in the backend's order. */
    method ImageList() returns (names: Option<seq<string>>, err: Option<Fault>)
      modifies client
      ensures names.Some? <==> err.None?
      ensures client == null ==> err == Some(ClientMissing(NoClient))
      ensures client != null ==>
        && client.state == old(client.state)
        && client.calls == old(client.calls) + [Call(ImageServiceList, "", err.None?)]
        && (err.Some? ==> FailedAt(err, ImageServiceList))
        && (names.Some? ==> names.value == Names(client.state.images))
    {
      if client == null {
        return None, Some(ClientMissing(NoClient));
      }
      names, err := ListNames(client);
    }

    /**
     * RuntimeCreate: makes sure the runtime image is present (pulling it
     * only when the image check fails), then creates container `info.Name`
     * with the caller's snapshot name and returns its id. Nothing checks
     * that an existing runtime of the same name is absent: the backend
     * refuses it. Without a client the image check answers false and the
     * pull dereferences the nil client.
     */
    method RuntimeCreate(info: RuntimeInfo) returns (r: Creation, ghost trace: seq<Call>)
      requires client != null ==> client.Valid()
      modifies client
      ensures client != null ==> client.Valid()
      ensures client == null ==> r == NilClientPanic && trace == []
      ensures client != null ==>
        && !r.NilClientPanic?
        && (r.Created? ==> r.id == info.name)
        && client.calls == old(client.calls) + trace
        && CreatedFromImage(info.name, info.runtime, info.snapshotName, trace, CreationError(r), old(client.state), client.state)
    {
      if client == null {
        r, trace := NilClientPanic, [];
        return;
      }
      var err;
      err, trace := CreateFromImage(client, info.name, info.runtime, info.snapshotName);
      r := if err.Some? then CreateFailed(err.value) else Created(info.name);
    }

    /**
     * RuntimeDestroy: loads the container, kills its task with signal 9 and
     * deletes the task (both errors ignored), then deletes the container
     * with its snapshot.
     */
    method RuntimeDestroy(runtimeID: string) returns (err: Option<Fault>, ghost trace: seq<Call>)
      requires client != null ==> client.Valid()
      modifies client
      ensures client != null ==> client.Valid()
      ensures client == null ==> err == Some(ClientMissing(NoClient)) && trace == []
      ensures client != null ==>
        && client.calls == old(client.calls) + trace
        && Destroyed(runtimeID, trace, err, old(client.state), client.state)
    {
      if client == null {
        err, trace := Some(ClientMissing(NoClient)), [];
        return;
      }
      err, trace := DestroyContainer(client, runtimeID);
    }

    /** RuntimeExists: whether the container service knows the container; false without a client. */
    method RuntimeExists(runtimeID: string) returns (exists_: bool)
      modifies client
      ensures client == null ==> !exists_
      ensures client != null ==>
        && client.state == old(client.state)
        && client.calls == old(client.calls) + [Call(ContainerServiceGet, runtimeID, exists_)]
        && (exists_ ==> runtimeID in client.state.containers)
    {
      if client == null {
        return false;
      }
      var c, err := client.LookupContainer(runtimeID);
      exists_ := err.None?;
    }

    /**
     * RuntimeExec: runs the task in the runtime and, only when every step
     * succeeds, records the pid of the started process in `taskInfo.PID`.
     * The first failing step's error is returned and nothing is cleaned up.
     */
    method RuntimeExec(runtimeID: string, taskInfo: TaskInfo) returns (err: Option<Fault>, ghost trace: seq<Call>)
      requires client != null ==> client.Valid()
      modifies client, taskInfo
      ensures client != null ==> client.Valid()
      ensures taskInfo.name == old(taskInfo.name) && taskInfo.args == old(taskInfo.args)
      ensures taskInfo.env == old(taskInfo.env) && taskInfo.cwd == old(taskInfo.cwd)
      ensures err.Some? ==> taskInfo.pid == old(taskInfo.pid)
      ensures client == null ==> err == Some(ClientMissing(ClientUnavailable)) && trace == []
      ensures client != null ==>
        && client.calls == old(client.calls) + trace
        && Executed(runtimeID, taskInfo.name, taskInfo.args, taskInfo.env, taskInfo.cwd, taskInfo.pid,
                    trace, err, old(client.state), client.state)
    {
      if client == null {
        err, trace := Some(ClientMissing(ClientUnavailable)), [];
        return;
      }
      var pid;
      err, pid, trace := ExecTask(client, runtimeID, taskInfo.name, taskInfo.args, taskInfo.env, taskInfo.cwd);
      if err.None? {
        taskInfo.pid := pid;
      }
    }

    /**
     * RuntimeKill: sends `signal` to the process named `taskInfo.Name` in the
     * runtime's task, stopping at the first failing step.
     */
    method RuntimeKill(runtimeID: string, taskInfo: TaskInfo, signal: int) returns (err: Option<Fault>, ghost trace: seq<Call>)
      requires client != null ==> client.Valid()
      modifies client
      ensures client != null ==> client.Valid()
      ensures client == null ==> err == Some(ClientMissing(ClientUnavailable)) && trace == []
      ensures client != null ==>
        && client.calls == old(client.calls) + trace
        && SignalDelivered(runtimeID, taskInfo.name, signal, trace, err, old(client.state), client.state)
    {
      if client == null {
        err, trace := Some(ClientMissing(ClientUnavailable)), [];
        return;
      }
      err, trace := SignalProcess(client, runtimeID, taskInfo.name, signal);
    }
  }

  /** A successful RuntimeCreate leaves the container it names, with the caller's image and snapshot. */
  lemma {:induction false} CreatedRuntimeExists(info: RuntimeInfo, t: seq<Call>, r: Creation, before: State, after: State)
    requires r.Created? && r.id == info.name
    requires CreatedFromImage(info.name, info.runtime, info.snapshotName, t, CreationError(r), before, after)
    requires SnapshotsDistinct(before.containers)
    ensures r.id !in before.containers && r.id in after.containers
    ensures after.containers[r.id] == Container(info.runtime, info.snapshotName)
    ensures SnapshotsDistinct(after.containers)
  {
    CreateKeepsSnapshotsDistinct(info.name, info.runtime, info.snapshotName, t, CreationError(r), before, after);
  }
}
