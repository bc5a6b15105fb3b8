/** How the operator marks objects as its own and recognises them again
    (pkg/common/resource.go, setOwner and isResourceOwned). */
module Ownership {
  import opened Kube
  import opened Labels

  const NAMESPACED_NAME := "operator-sdk/primary-resource"
  const OWNER_TYPE := "operator-sdk/primary-resource-type"
  const GROUP := "tektontasks.kubevirt.io"
  const CR_KIND := "TektonTasks"
  const GROUP_KIND := CR_KIND + "." + GROUP

  function OwnerName(nn: Name): string {
    nn.ns + "/" + nn.name
  }

  function ControllerRef(inst: CR): OwnerRef {
    OwnerRef(GROUP, CR_KIND, inst.nn.name, inst.uid, true)
  }

  function OwnerAnnotations(inst: CR): map<string, string> {
    map[NAMESPACED_NAME := OwnerName(inst.nn), OWNER_TYPE := GROUP_KIND]
  }

  predicate ReferSame(a: OwnerRef, b: OwnerRef) {
    a.group == b.group && a.kind == b.kind && a.name == b.name
  }

  function ControllerOf(refs: seq<OwnerRef>): Option<OwnerRef> {
    if refs == [] then None
    else if refs[0].controller then Some(refs[0])
    else ControllerOf(refs[1..])
  }

  function Upsert(refs: seq<OwnerRef>, r: OwnerRef): seq<OwnerRef> {
    if refs == [] then [r]
    else if ReferSame(refs[0], r) then [r] + refs[1..]
    else [refs[0]] + Upsert(refs[1..], r)
  }

  /** The library's SetControllerReference: no owner in another namespace, no second controller. */
  function SetControllerReference(inst: CR, o: Obj): Result<Obj> {
    var prev := ControllerOf(o.ownerRefs);
    if inst.nn.ns != "" && o.ns != inst.nn.ns then Err(Unavailable("owner in another namespace"))
    else if prev.Some? && !ReferSame(prev.value, ControllerRef(inst)) then Err(Unavailable("already owned"))
    else Ok(o.(ownerRefs := Upsert(o.ownerRefs, ControllerRef(inst))))
  }

  /** The library's SetOwnerAnnotations. */
  function SetOwnerAnnotations(inst: CR, o: Obj): Result<Obj> {
    if inst.nn.name == "" then Err(Unavailable("owner does not have a name"))
    else Ok(o.(annotations := o.annotations + OwnerAnnotations(inst)))
  }

  /** An object together with the error that interrupted writing it, if any. */
  datatype Marked = Marked(obj: Obj, err: Option<Error>)

  function OrElse(r: Result<Obj>, o: Obj): Marked {
    match r
    case Ok(marked) => Marked(marked, None)
    case Err(e) => Marked(o, Some(e))
  }

  function SetOwner(inst: CR, o: Obj, isCluster: bool): Marked {
    if isCluster then
      var bare := o.(ownerRefs := []);
      OrElse(SetOwnerAnnotations(inst, bare), bare)
    else
      var bare := o.(annotations := o.annotations - {NAMESPACED_NAME, OWNER_TYPE});
      OrElse(SetControllerReference(inst, bare), bare)
  }

  /** Both owner annotations of the CR are on the object. */
  predicate CarriesMarks(inst: CR, o: Obj) {
    && Lookup(o.annotations, OWNER_TYPE) == GROUP_KIND
    && Lookup(o.annotations, NAMESPACED_NAME) == OwnerName(inst.nn)
  }

  /** What it means that an object belongs to a CR. */
  predicate OwnedBy(inst: CR, o: Obj) {
    || (o.ns == inst.nn.ns && ControllerRef(inst) in o.ownerRefs)
    || CarriesMarks(inst, o)
  }

  /** The object that isResourceOwned compares with: a copy of the expected one, marked for the CR. */
  function Reference(inst: CR, expected: Obj): Result<Obj> {
    SetOwnerAnnotations(inst, if expected.ns == inst.nn.ns
                              then expected.(ownerRefs := [ControllerRef(inst)]) else expected)
  }

  /** The ownership test, with the panic that indexing an empty owner list causes. */
  function IsResourceOwned(inst: CR, expected: Obj, found: Obj): Result<bool> {
    var reference := Reference(inst, expected);
    if reference.Err? then Err(reference.error)
    else if found.ownerRefs != [] && reference.value.ownerRefs == [] then Err(Panicked)
    else Ok((found.ownerRefs != [] && reference.value.ownerRefs[0] in found.ownerRefs)
            || CarriesMarks(inst, found))
  }

  method CheckOwned(inst: CR, expected: Obj, found: Obj) returns (owned: Result<bool>)
    ensures owned == IsResourceOwned(inst, expected, found)
  {
    var reference := expected;
    if reference.ns == inst.nn.ns {
      reference := reference.(ownerRefs := []);
      // In its own namespace and without other controllers the CR can always be set as the controller.
      reference := SetControllerReference(inst, reference).value;
    }
    var annotated := SetOwnerAnnotations(inst, reference);
    if annotated.Err? {
      return Err(annotated.error);
    }
    reference := annotated.value;
    for i := 0 to |found.ownerRefs|
      invariant i > 0 ==> reference.ownerRefs != [] && reference.ownerRefs[0] !in found.ownerRefs[..i]
    {
      if reference.ownerRefs == [] {
        return Err(Panicked);
      }
      if found.ownerRefs[i] == reference.ownerRefs[0] {
        return Ok(true);
      }
    }
    owned := Ok(
      && Lookup(found.annotations, OWNER_TYPE) == Lookup(reference.annotations, OWNER_TYPE)
      && Lookup(found.annotations, NAMESPACED_NAME) == Lookup(reference.annotations, NAMESPACED_NAME));
  }

  // ---------- references ----------

  /** A CR can be set as an object's controller if and only if the object is in the CR's namespace and no other
      owner is its controller; then the CR's reference is there, the other owners' references are as before, and
      an earlier one of the CR is replaced. */
  lemma ControllerReferenceExactly(inst: CR, o: Obj)
    requires inst.nn.ns != ""
    ensures var r, me := SetControllerReference(inst, o), ControllerRef(inst);
            && (r.Ok? <==> o.ns == inst.nn.ns
                           && (ControllerOf(o.ownerRefs).Some? ==> ReferSame(ControllerOf(o.ownerRefs).value, me)))
            && (r.Ok? ==>
                  && r.value == o.(ownerRefs := r.value.ownerRefs) && me in r.value.ownerRefs
                  && (forall x | !ReferSame(x, me) :: x in r.value.ownerRefs <==> x in o.ownerRefs)
                  && |r.value.ownerRefs| <= |o.ownerRefs| + 1
                  && ((exists x <- o.ownerRefs :: ReferSame(x, me)) ==> |r.value.ownerRefs| == |o.ownerRefs|))
  {
    UpsertExactly(o.ownerRefs, ControllerRef(inst));
  }

  lemma {:induction false} UpsertExactly(refs: seq<OwnerRef>, r: OwnerRef)
    ensures var next := Upsert(refs, r);
            && r in next && |next| == |refs| + (if exists x <- refs :: ReferSame(x, r) then 0 else 1)
            && forall x | !ReferSame(x, r) :: x in next <==> x in refs
  {
    if refs != [] && !ReferSame(refs[0], r) {
      UpsertExactly(refs[1..], r);
      assert refs == [refs[0]] + refs[1..];
    }
  }

  /** The first reference that claims to be the controller's. */
  lemma {:induction false} ControllerOfExactly(refs: seq<OwnerRef>)
    ensures ControllerOf(refs).None? <==> forall x <- refs :: !x.controller
    ensures ControllerOf(refs).Some? ==> ControllerOf(refs).value in refs && ControllerOf(refs).value.controller
  {
    if refs != [] && !refs[0].controller {
      ControllerOfExactly(refs[1..]);
      assert refs == [refs[0]] + refs[1..];
    }
  }

  // ---------- what the marks mean ----------

  /** For an operand's list entry, which carries no owner references of its own, the test says exactly
      who owns the object, except that it panics exactly on a foreign-namespace object with references. */
  lemma OwnershipTestExact(inst: CR, expected: Obj, found: Obj)
    requires inst.nn.name != "" && expected.ownerRefs == [] && found.ns == expected.ns
    ensures var test := IsResourceOwned(inst, expected, found);
            if found.ownerRefs != [] && found.ns != inst.nn.ns then test == Err(Panicked)
            else test == Ok(OwnedBy(inst, found))
  {
  }

  /** For any expected object the index into its owner references is out of bounds exactly when the
      found object has references, the expected one has none, and it lies outside the CR's namespace. */
  lemma IndexOutOfBoundsExactly(inst: CR, expected: Obj, found: Obj)
    requires inst.nn.name != ""
    ensures IsResourceOwned(inst, expected, found) == Err(Panicked)
       <==> found.ownerRefs != [] && expected.ownerRefs == [] && expected.ns != inst.nn.ns
  {
  }

  /** Outside the CR's namespace the test compares the found references with the expected object's own
      first one. A ClusterTask is listed from the cluster with whatever references it has, so one that
      somebody else controls passes for owned exactly because it has a reference at all. */
  lemma ForeignReferencePassesForOwned(inst: CR, found: Obj)
    requires inst.nn.name != "" && found.ns != inst.nn.ns
    ensures IsResourceOwned(inst, found, found) == Ok(found.ownerRefs != [] || OwnedBy(inst, found))
  {
  }

  predicate NoSlash(s: string) {
    '/' !in s
  }

  /** The owner annotation names one CR only: Kubernetes namespaces contain no slash. */
  lemma {:induction false} OwnerNameInjective(a: Name, b: Name)
    requires NoSlash(a.ns) && NoSlash(b.ns) && OwnerName(a) == OwnerName(b)
    ensures a == b
  {
    var s := OwnerName(a);
    assert s[|a.ns|] == '/' && s[|b.ns|] == '/';
    if |a.ns| < |b.ns| || |b.ns| < |a.ns| {
      assert false;
    }
    assert a.ns == s[..|a.ns|] == s[..|b.ns|] == b.ns;
    assert a.name == s[|a.ns| + 1..] == b.name;
  }

  /** Without the rule on namespaces two CRs can share the annotation. */
  lemma OwnerNameAmbiguousWithSlash()
    ensures OwnerName(Name("a/b", "c")) == OwnerName(Name("a", "b/c"))
  {
    assert "a/b" + "/" + "c" == "a/b/c" == "a" + "/" + "b/c";
  }

  /** A cluster resource, written over any stored object, belongs to its CR and to no other. */
  lemma ClusterRoundTrip(inst: CR, other: CR, o: Obj, stored: Obj)
    requires inst.nn.name != "" && NoSlash(inst.nn.ns) && NoSlash(other.nn.ns)
    requires var m := SetOwner(inst, o, true);
             stored.ownerRefs == m.obj.ownerRefs && m.obj.annotations.Keys <= stored.annotations.Keys &&
             forall k <- m.obj.annotations :: stored.annotations[k] == m.obj.annotations[k]
    ensures OwnedBy(inst, stored)
    ensures OwnedBy(other, stored) <==> other.nn == inst.nn
  {
    var m := SetOwner(inst, o, true).obj;
    assert NAMESPACED_NAME in m.annotations && OWNER_TYPE in m.annotations;
    assert NAMESPACED_NAME in stored.annotations && OWNER_TYPE in stored.annotations;
    assert NAMESPACED_NAME != OWNER_TYPE by { assert |NAMESPACED_NAME| != |OWNER_TYPE|; }
    if OwnedBy(other, stored) {
      OwnerNameInjective(inst.nn, other.nn);
    }
  }

  /** A namespaced resource without earlier owners, freshly created, belongs to its CR and to no CR
      with another name, another namespace or another uid. */
  lemma NamespacedRoundTrip(inst: CR, other: CR, o: Obj)
    requires o.ownerRefs == [] && SetOwner(inst, o, false).err.None?
    requires inst.nn.ns != ""
    ensures var m := SetOwner(inst, o, false).obj;
            OwnedBy(inst, m) && (OwnedBy(other, m) <==> other.nn == inst.nn && other.uid == inst.uid)
  {
    var m := SetOwner(inst, o, false).obj;
    assert Upsert([], ControllerRef(inst)) == [ControllerRef(inst)];
    assert GROUP_KIND != "" by { assert |GROUP_KIND| > 0; }
  }

  /** Ownership depends on the CR's name and uid only. */
  lemma SameOwner(a: CR, b: CR, o: Obj)
    requires a.nn == b.nn && a.uid == b.uid
    ensures OwnedBy(a, o) == OwnedBy(b, o)
  {
  }
}
