/** The values the operator works on: cluster objects, the TektonTasks custom resource (CR),
    the state of the cluster, and the script of everything the operator does not control. */
module Kube {

  datatype Option<+T> = None | Some(value: T)

  /** What a client call can fail with. `Panicked` stands for a Go run-time panic. */
  datatype Error =
    | NotFound
    | Conflict
    | AlreadyExists
    | Unavailable(message: string)
    | Panicked

  datatype Result<+T> = Ok(value: T) | Err(error: Error)

  // ---------- objects ----------

  datatype Kind = Task | ClusterTask | Pipeline | ConfigMap | ServiceAccount | RoleBinding | ClusterRole

  /** Kinds whose metadata.generation counts payload changes; the others keep generation 0. */
  predicate HasGeneration(kind: Kind) {
    kind == Task || kind == ClusterTask || kind == Pipeline
  }

  function KindName(kind: Kind): string {
    match kind
    case Task => "Task"
    case ClusterTask => "ClusterTask"
    case Pipeline => "Pipeline"
    case ConfigMap => "ConfigMap"
    case ServiceAccount => "ServiceAccount"
    case RoleBinding => "RoleBinding"
    case ClusterRole => "ClusterRole"
  }

  datatype Name = Name(ns: string, name: string)

  datatype Key = Key(kind: Kind, ns: string, name: string)

  datatype OwnerRef = OwnerRef(group: string, kind: string, name: string, uid: nat, controller: bool)

  datatype Step = Step(name: string, image: string)

  datatype Param = Param(name: string, default: string)

  datatype Subject = Subject(name: string, ns: string)

  /** The fields that an operand's update function assigns, for every kind; a kind uses its own ones. */
  datatype Payload = Payload(
    steps: seq<Step>, params: seq<Param>, data: map<string, string>,
    roleRef: string, subjects: seq<Subject>, rules: seq<string>, rest: string)

  const NO_PAYLOAD := Payload([], [], map[], "", [], [], "")

  /** `typed` says whether TypeMeta is filled in: a client may or may not fill it in on decoding.
      The resource version 0 stands for the empty string. A nil and an empty map are equal. */
  datatype Obj = Obj(
    kind: Kind, name: string, ns: string, typed: bool,
    uid: nat, rv: nat, gen: nat,
    labels: map<string, string>, annotations: map<string, string>,
    ownerRefs: seq<OwnerRef>, finalizers: seq<string>, terminating: bool,
    payload: Payload)

  function KeyOf(o: Obj): Key {
    Key(o.kind, o.ns, o.name)
  }

  // ---------- the custom resource ----------

  /** `tasksNs` is None when spec.tasks is nil. */
  datatype Spec = Spec(pipelinesNs: string, tasksNs: Option<string>, deploy: bool)

  const EMPTY_SPEC := Spec("", None, false)

  datatype Phase = Empty | Deploying | Deployed | Deleting | Deleted

  datatype ConditionType = Available | Progressing | Degraded

  datatype Truth = True | False

  /** A condition without its time stamps. */
  datatype Condition = Condition(typ: ConditionType, status: Truth, message: string)

  datatype Status = Status(
    phase: Phase, conditions: seq<Condition>, paused: bool, observedGeneration: nat,
    operatorVersion: string, targetVersion: string, observedVersion: string)

  const INITIAL_STATUS := Status(Empty, [], false, 0, "", "", "")

  /** `labels` is None when the label map is nil: AddAppLabels tells nil from empty. */
  datatype CR = CR(
    nn: Name, uid: nat, rv: nat, gen: nat,
    labels: Option<map<string, string>>, annotations: map<string, string>,
    finalizers: seq<string>, deleting: bool, spec: Spec, status: Status)

  const FINALIZER := "tekton-tasks.kubevirt.io/finalizer"
  const OLD_FINALIZER := "finalize.tekton-tasks.kubevirt.io"

  /** The CR carries one of the operator's finalizers. */
  predicate HasOurs(c: CR) {
    FINALIZER in c.finalizers || OLD_FINALIZER in c.finalizers
  }

  /** How many of the operator's own writes of this CR can still start a pass: adding the finalizer, taking
      the old one off, and releasing a CR that is being deleted. */
  function Stake(cr: Option<CR>): nat {
    if cr.None? then 0
    else
      var c := cr.value;
      (if !c.deleting && FINALIZER !in c.finalizers then 1 else 0)
      + (if OLD_FINALIZER in c.finalizers then 1 else 0)
      + (if c.deleting && HasOurs(c) then 1 else 0)
  }

  // ---------- the cluster ----------

  /** An operator write that changed the cluster, in the order the API server accepted them; writing an
      operand object records the CR that was stored at that moment. */
  datatype Write =
    | ObjCreated(key: Key, holder: Option<CR>)
    | ObjUpdated(key: Key, holder: Option<CR>)
    | ObjDeleted(key: Key, victim: Obj)
    | CrWritten(before: CR, after: Option<CR>)
    | CrStatus(before: CR, after: Option<CR>)

  /** A user put an object in place or changed one. */
  datatype Put = Put(key: Key, before: Option<Obj>, after: Obj)

  /** `index` lists the object keys in the order in which the server hands them out in a List call;
      `others` counts the TektonTasks CRs besides the one this operator request is about;
      `rv` and `uid` are the next ones to be given out; `calls` counts the client calls made, `touches`
      the changes that users made to the CR, and `puts` lists those that they made to objects. */
  datatype World = World(
    objs: map<Key, Obj>, index: seq<Key>, cr: Option<CR>, others: nat,
    rv: nat, uid: nat, calls: nat, touches: nat, puts: seq<Put>, audit: seq<Write>)

  /** What users and other controllers do. */
  datatype Edit =
    | PutObj(key: Key, labels: map<string, string>, annotations: map<string, string>,
             ownerRefs: seq<OwnerRef>, finalizers: seq<string>, payload: Payload)
    | DeleteObj(key: Key)
    | FinishDelete(key: Key)
    | CreateCr(spec: Spec, crLabels: Option<map<string, string>>, crAnnotations: map<string, string>,
               crFinalizers: seq<string>)
    | EditCr(spec: Spec, crLabels: Option<map<string, string>>, crAnnotations: map<string, string>)
    | DeleteCr
    | SetOthers(count: nat)

  /** The errors the network or a busy server may cause by itself. */
  type FaultError = e: Error | e.Conflict? || e.Unavailable? witness Conflict

  /** A call is served, turned away before it takes effect, or takes effect with its answer lost. */
  datatype Fault = Served | Rejected(error: FaultError) | AnswerLost(error: FaultError)

  /** What happens around one client call: the edits that reach the server before it, its fault,
      and whether the decoded answer has its TypeMeta filled in. */
  datatype Turn = Turn(edits: seq<Edit>, fault: Fault, typed: bool)

  /** The images and the version the operator reads from its environment variables. */
  datatype Config = Config(
    cleanupVm: string, copyTemplate: string, modifyDataObject: string, createVm: string,
    diskVirtCustomize: string, diskVirtSysprep: string, modifyVmTemplate: string,
    waitForVmi: string, sshKeys: string, virtio: string, operatorVersion: string)

  /** Everything outside the operator. Turn n belongs to client call n, so quantifying over all
      environments covers every interleaving with users and every pattern of faults. */
  datatype Env = Env(turn: nat -> Turn, home: Name, cfg: Config)
}
