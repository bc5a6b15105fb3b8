/** The resource engine (pkg/common/resource.go): brings one object in line with what is expected of it,
    and removes one object. */
module Resource {
  import opened Kube
  import opened ApiServer
  import opened Labels
  import opened Cache
  import opened Ownership

  // ---------- what an operand asks for ----------

  /** The update functions the operands pass to the engine. */
  datatype UpdateFunc =
    | KeepPayload          // no update function given
    | CopyPayload          // assigns the payload of the expected object
    | CopyPipeline         // assigns the payload, with the default image of virtio parameters replaced
    | CopyMeta             // assigns labels and annotations
    | CopyMetaAndPayload   // assigns labels, annotations and payload

  datatype Recipe = Recipe(
    isCluster: bool, addLabels: bool, operandName: string, component: string,
    update: UpdateFunc, immutable: bool, always: bool)

  datatype OpResult = ResultNone | ResultCreated | ResultUpdated | ResultDeleted

  datatype ResourceStatus = ResourceStatus(
    progressing: Option<string>, notAvailable: Option<string>, degraded: Option<string>)

  const HEALTHY := ResourceStatus(None, None, None)

  datatype ReconcileResult = ReconcileResult(status: ResourceStatus, resource: Key, op: OpResult)

  predicate IsSuccess(r: ReconcileResult) {
    r.status.progressing == None && r.status.notAvailable == None && r.status.degraded == None
  }

  function ResourceDeletedResult(k: Key, op: OpResult): ReconcileResult {
    var message := Some("Resource is being deleted.");
    ReconcileResult(ResourceStatus(message, message, message), k, op)
  }

  const VIRTIO_PREFIX := "virtioContainer"

  function VirtioParams(image: string, params: seq<Param>): seq<Param> {
    if params == [] then []
    else
      [if VIRTIO_PREFIX <= params[0].name then params[0].(default := image) else params[0]]
      + VirtioParams(image, params[1..])
  }

  /** Exactly the parameters whose name starts with the prefix get the image; order and names stay. */
  lemma {:induction false} VirtioParamsAt(image: string, params: seq<Param>, i: nat)
    requires i < |params|
    ensures var updated := VirtioParams(image, params);
            && |updated| == |params| && updated[i].name == params[i].name
            && updated[i].default == if VIRTIO_PREFIX <= params[i].name then image else params[i].default
  {
    if i > 0 {
      VirtioParamsAt(image, params[1..], i - 1);
    } else if |params| > 1 {
      VirtioParamsAt(image, params[1..], 0);
    }
  }

  /** The payload an update function leaves in the found object. */
  function SyncedPayload(u: UpdateFunc, cfg: Config, expected: Payload, found: Payload): Payload {
    match u
    case KeepPayload => found
    case CopyPayload => expected
    case CopyPipeline => expected.(params := VirtioParams(cfg.virtio, expected.params))
    case CopyMeta => found
    case CopyMetaAndPayload => expected
  }

  function ApplyUpdate(u: UpdateFunc, cfg: Config, expected: Obj, found: Obj): Obj {
    var o := found.(payload := SyncedPayload(u, cfg, expected.payload, found.payload));
    if u.CopyMeta? || u.CopyMetaAndPayload?
    then o.(labels := expected.labels, annotations := expected.annotations) else o
  }

  /** The metadata part of the mutation, which happens whatever the cache says. */
  function Merged(expected: Obj, found: Obj): Obj {
    found.(ownerRefs := expected.ownerRefs,
           labels := found.labels + expected.labels,
           annotations := found.annotations + expected.annotations)
  }

  /** The found object after the mutation; `hit` says that the cache knows this version of it. */
  function Mutated(r: Recipe, cfg: Config, expected: Obj, found: Obj, hit: bool): Obj {
    if found.terminating then found
    else if r.always || !hit then ApplyUpdate(r.update, cfg, expected, Merged(expected, found))
    else Merged(expected, found)
  }

  function Blank(o: Obj): Obj {
    Obj(o.kind, o.name, o.ns, false, 0, 0, 0, map[], map[], [], [], false, NO_PAYLOAD)
  }

  // ---------- the engine as a function ----------

  datatype EngineOut = EngineOut(w: World, found: Obj, res: Result<OpResult>)

  function CreateOrUpdate(w: World, env: Env, c: Versions, r: Recipe, x: Obj): EngineOut {
    var got := GetObj(w, env, KeyOf(x));
    if got.res.Err? then
      if got.res.error != NotFound then EngineOut(got.w, Blank(x), Err(got.res.error))
      else
        var blank := Mutated(r, env.cfg, x, Blank(x), Hit(c, Blank(x)));
        var made := CreateObj(got.w, env, blank);
        if made.res.Err? then EngineOut(made.w, blank, Err(made.res.error))
        else EngineOut(made.w, made.res.value, Ok(ResultCreated))
    else
      var existing := got.res.value;
      var next := Mutated(r, env.cfg, x, existing, Hit(c, existing));
      if next == existing then EngineOut(got.w, next, Ok(ResultNone))
      else if r.immutable && existing.payload != next.payload then
        var gone := DeleteObject(got.w, env, KeyOf(next));
        EngineOut(gone.w, next, if gone.res.Err? then Err(gone.res.error) else Ok(ResultDeleted))
      else
        var put := UpdateObj(got.w, env, next);
        if put.res.Err? then EngineOut(put.w, next, Err(put.res.error))
        else EngineOut(put.w, put.res.value, Ok(ResultUpdated))
  }

  /** The expected object with labels and owner marks, as the operand's list keeps it. */
  function MarkedFor(inst: CR, r: Recipe, o: Obj): Marked {
    var labelled := if r.addLabels
                    then o.(labels := o.labels + AppLabels(inst.labels, r.operandName, r.component)) else o;
    SetOwner(inst, labelled, r.isCluster)
  }

  datatype BuildOut = BuildOut(w: World, versions: Versions, obj: Obj, res: Result<ReconcileResult>)

  /** What the cache remembers after the engine is done with an object. */
  function Remember(c: Versions, found: Obj, op: OpResult): Versions {
    if op == ResultDeleted || found.terminating then Forgotten(c, found) else Added(c, found)
  }

  function ResultOf(x: Obj, found: Obj, op: OpResult): ReconcileResult {
    if op == ResultDeleted || found.terminating then ResourceDeletedResult(KeyOf(x), op)
    else ReconcileResult(HEALTHY, KeyOf(x), op)
  }

  function Build(w: World, env: Env, c: Versions, inst: CR, r: Recipe, o: Obj): BuildOut {
    var m := MarkedFor(inst, r, o);
    if m.err.Some? then BuildOut(w, c, m.obj, Err(m.err.value))
    else
      var out := CreateOrUpdate(w, env, c, r, m.obj);
      if out.res.Err? then BuildOut(out.w, c, m.obj, Err(out.res.error))
      else BuildOut(out.w, Remember(c, out.found, out.res.value), m.obj,
                    Ok(ResultOf(m.obj, out.found, out.res.value)))
  }

  // ---------- the engine as the source runs it ----------

  method UpdateStringMap(expected: map<string, string>, found: map<string, string>)
    returns (updated: map<string, string>)
    ensures updated == found + expected
  {
    updated := found;
    var todo := expected.Keys;
    while todo != {}
      invariant todo <= expected.Keys
      invariant updated == found + (map k <- expected.Keys - todo :: expected[k])
      decreases |todo|
    {
      var k :| k in todo;
      updated := updated[k := expected[k]];
      todo := todo - {k};
    }
  }

  method SetVirtioImage(image: string, params: seq<Param>) returns (updated: seq<Param>)
    ensures updated == VirtioParams(image, params)
  {
    updated := params;
    var i := 0;
    while i < |params|
      invariant 0 <= i <= |params| && |updated| == |params|
      invariant updated[i..] == params[i..]
      invariant updated[..i] + VirtioParams(image, params[i..]) == VirtioParams(image, params)
    {
      assert params[i..][1..] == params[i + 1..];
      ghost var before := updated;
      if VIRTIO_PREFIX <= params[i].name {
        updated := updated[i := params[i].(default := image)];
      }
      i := i + 1;
      assert updated[..i] == before[..i - 1] + [updated[i - 1]];
    }
  }

  class ReconcileBuilder {
    const cluster: Cluster
    const cache: VersionCache
    const inst: CR
    const recipe: Recipe
    var resource: Obj

    constructor (cluster: Cluster, cache: VersionCache, inst: CR, recipe: Recipe, resource: Obj)
      ensures this.cluster == cluster && this.cache == cache && this.inst == inst
      ensures this.recipe == recipe && this.resource == resource
    {
      this.cluster, this.cache, this.inst := cluster, cache, inst;
      this.recipe, this.resource := recipe, resource;
    }

    method CallUpdateFunc(found: Obj) returns (updated: Obj)
      ensures updated == ApplyUpdate(recipe.update, cluster.env.cfg, resource, found)
    {
      updated := found;
      match recipe.update
      case KeepPayload =>
      case CopyPayload =>
        updated := updated.(payload := resource.payload);
      case CopyPipeline =>
        updated := updated.(payload := resource.payload);
        var params := SetVirtioImage(cluster.env.cfg.virtio, updated.payload.params);
        updated := updated.(payload := updated.payload.(params := params));
      case CopyMeta =>
        updated := updated.(labels := resource.labels);
        updated := updated.(annotations := resource.annotations);
      case CopyMetaAndPayload =>
        updated := updated.(labels := resource.labels);
        updated := updated.(annotations := resource.annotations);
        updated := updated.(payload := resource.payload);
    }

    method Mutate(found: Obj) returns (updated: Obj)
      ensures updated == Mutated(recipe, cluster.env.cfg, resource, found, Hit(cache.versions, found))
    {
      updated := found;
      if found.terminating {
        return;
      }
      updated := updated.(ownerRefs := resource.ownerRefs);
      var labels := UpdateStringMap(resource.labels, updated.labels);
      updated := updated.(labels := labels);
      var annotations := UpdateStringMap(resource.annotations, updated.annotations);
      updated := updated.(annotations := annotations);
      var known := cache.Contains(updated);
      if recipe.always || !known {
        updated := CallUpdateFunc(updated);
      }
    }

    method CreateOrUpdateWithImmutableSpec() returns (found: Obj, res: Result<OpResult>)
      modifies cluster
      ensures EngineOut(cluster.world, found, res)
           == CreateOrUpdate(old(cluster.world), cluster.env, cache.versions, recipe, resource)
    {
      found := Blank(resource);
      var got := cluster.Get(KeyOf(resource));
      if got.Err? {
        if got.error != NotFound {
          return found, Err(got.error);
        }
        found := Mutate(found);
        var made := cluster.Create(found);
        if made.Err? {
          return found, Err(made.error);
        }
        return made.value, Ok(ResultCreated);
      }
      var existing := got.value;
      found := Mutate(existing);
      if existing == found {
        return found, Ok(ResultNone);
      }
      if recipe.immutable && existing.payload != found.payload {
        var gone := cluster.Delete(KeyOf(found));
        if gone.Err? {
          return found, Err(gone.error);
        }
        return found, Ok(ResultDeleted);
      }
      var put := cluster.Update(found);
      if put.Err? {
        return found, Err(put.error);
      }
      return put.value, Ok(ResultUpdated);
    }

    method Reconcile() returns (res: Result<ReconcileResult>)
      modifies this, cluster, cache
      ensures BuildOut(cluster.world, cache.versions, resource, res)
           == Build(old(cluster.world), cluster.env, old(cache.versions), inst, recipe, old(resource))
    {
      if recipe.addLabels {
        var labels := AddAppLabels(inst.labels, recipe.operandName, recipe.component, resource.labels);
        resource := resource.(labels := labels);
      }
      var marked := SetOwner(inst, resource, recipe.isCluster);
      resource := marked.obj;
      if marked.err.Some? {
        return Err(marked.err.value);
      }
      var found, op := CreateOrUpdateWithImmutableSpec();
      if op.Err? {
        return Err(op.error);
      }
      if op.value == ResultDeleted || found.terminating {
        cache.RemoveObj(found);
        return Ok(ResourceDeletedResult(KeyOf(resource), op.value));
      }
      cache.Add(found);
      return Ok(ReconcileResult(HEALTHY, KeyOf(resource), op.value));
    }
  }

  // ---------- removing objects ----------

  datatype CleanupResult = CleanupResult(resource: Key, deleted: bool)

  datatype CleanOut = CleanOut(w: World, res: Result<CleanupResult>)

  function Cleaned(w: World, env: Env, inst: CR, x: Obj): CleanOut {
    var got := GetObj(w, env, KeyOf(x));
    if got.res.Err? then
      CleanOut(got.w, if got.res.error == NotFound then Ok(CleanupResult(KeyOf(x), true)) else Err(got.res.error))
    else
      var owned := IsResourceOwned(inst, x, got.res.value);
      if owned.Err? then CleanOut(got.w, Err(owned.error))
      else if !owned.value then CleanOut(got.w, Ok(CleanupResult(KeyOf(x), true)))
      else if got.res.value.terminating then CleanOut(got.w, Ok(CleanupResult(KeyOf(x), false)))
      else
        var gone := DeleteObject(got.w, env, KeyOf(got.res.value));
        if gone.res.Err? && gone.res.error != NotFound then CleanOut(gone.w, Err(gone.res.error))
        else CleanOut(gone.w, Ok(CleanupResult(KeyOf(x), gone.res.Err?)))
  }

  datatype CleanAllOut = CleanAllOut(w: World, res: Result<seq<CleanupResult>>)

  function CleanedAll(w: World, env: Env, inst: CR, xs: seq<Obj>): CleanAllOut
    decreases |xs|
  {
    if xs == [] then CleanAllOut(w, Ok([]))
    else
      var first := Cleaned(w, env, inst, xs[0]);
      if first.res.Err? then CleanAllOut(first.w, Err(first.res.error))
      else
        var rest := CleanedAll(first.w, env, inst, xs[1..]);
        CleanAllOut(rest.w, if rest.res.Err? then rest.res else Ok([first.res.value] + rest.res.value))
  }

  /** The outcome of a loop that has already collected some results. */
  function Prepended(done: seq<CleanupResult>, out: CleanAllOut): CleanAllOut {
    CleanAllOut(out.w, if out.res.Err? then out.res else Ok(done + out.res.value))
  }

  method Cleanup(cluster: Cluster, inst: CR, resource: Obj) returns (res: Result<CleanupResult>)
    modifies cluster
    ensures CleanOut(cluster.world, res) == Cleaned(old(cluster.world), cluster.env, inst, resource)
  {
    var got := cluster.Get(KeyOf(resource));
    if got == Err(NotFound) {
      return Ok(CleanupResult(KeyOf(resource), true));
    }
    if got.Err? {
      return Err(got.error);
    }
    var found := got.value;
    var owned := CheckOwned(inst, resource, found);
    if owned.Err? {
      return Err(owned.error);
    }
    if !owned.value {
      return Ok(CleanupResult(KeyOf(resource), true));
    }
    if !found.terminating {
      var gone := cluster.Delete(KeyOf(found));
      if gone == Err(NotFound) {
        return Ok(CleanupResult(KeyOf(resource), true));
      }
      if gone.Err? {
        return Err(gone.error);
      }
    }
    return Ok(CleanupResult(KeyOf(resource), false));
  }

  method DeleteAll(cluster: Cluster, inst: CR, resources: seq<Obj>) returns (res: Result<seq<CleanupResult>>)
    modifies cluster
    ensures CleanAllOut(cluster.world, res) == CleanedAll(old(cluster.world), cluster.env, inst, resources)
  {
    var results: seq<CleanupResult> := [];
    ghost var whole := CleanedAll(cluster.world, cluster.env, inst, resources);
    assert resources[0..] == resources;
    assert whole.res.Ok? ==> results + whole.res.value == whole.res.value;
    for i := 0 to |resources|
      invariant Prepended(results, CleanedAll(cluster.world, cluster.env, inst, resources[i..])) == whole
    {
      assert resources[i..][1..] == resources[i + 1..];
      ghost var before := results;
      var result := Cleanup(cluster, inst, resources[i]);
      if result.Err? {
        return Err(result.error);
      }
      results := results + [result.value];
      ghost var rest := CleanedAll(cluster.world, cluster.env, inst, resources[i + 1..]);
      assert rest.res.Ok? ==> results + rest.res.value == before + ([result.value] + rest.res.value);
    }
    assert resources[|resources|..] == [] && results + [] == results;
    return Ok(results);
  }
}
