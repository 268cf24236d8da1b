/** Ownership recorded in annotations (operator-lib's SetOwnerAnnotations) and
    read back by parseNamespacedName. */
module Owner {
  import opened Store
  import opened Wrappers
  import Text

  function TypeAnnotation(): string { "operator-sdk/primary-resource-type" }
  function NameAnnotation(): string { "operator-sdk/primary-resource" }
  function InventoryType(): string { "RDSInventory.dbaas.redhat.com" }
  function InstanceType(): string { "RDSInstance.dbaas.redhat.com" }

  type Annotations = map<string, string>

  /** The `namespace/name` form written to the annotation. */
  function NamespacedName(k: Key): string {
    k.ns + "/" + k.name
  }

  function ParseNamespacedName(s: string): Key {
    match Text.Cut(s, '/')
    case (name, None) => Key("", name)
    case (ns, Some(name)) => Key(ns, name)
  }

  /** SetOwnerAnnotations on an object that may carry other annotations. */
  function SetOwner(a: Annotations, ownerType: string, owner: Key): Annotations {
    a[NameAnnotation() := NamespacedName(owner)][TypeAnnotation() := ownerType]
  }

  predicate IsSpace(c: char) { c in " \t\n\r" || c as int in {0x0B, 0x0C, 0x85, 0xA0} }

  /** strings.TrimSpace(s) == "" */
  predicate Blank(s: string) {
    forall c <- s :: IsSpace(c)
  }

  /** The owner of the given type that the annotations name, as both the
      teardown scan and the watch mapping read it. */
  function OwnerOf(a: Annotations, ownerType: string): Option<Key> {
    if TypeAnnotation() in a && a[TypeAnnotation()] == ownerType
       && NameAnnotation() in a && !Blank(a[NameAnnotation()])
    then Some(ParseNamespacedName(a[NameAnnotation()]))
    else None
  }

  /** The reconcile requests of a DBInstance event: its annotated RDSInstance. */
  function OwnerInstanceRequests(a: Annotations): seq<Key> {
    match OwnerOf(a, InstanceType())
    case None => []
    case Some(k) => [k]
  }

  /** Parsing gives back what was written exactly when the namespace has no slash. */
  lemma ParseWritten(k: Key)
    ensures ParseNamespacedName(NamespacedName(k)) == k <==> '/' !in k.ns
  {
    if '/' !in k.ns {
      Text.CutAtFirst(k.ns, '/', k.name);
      assert k.ns + ['/'] + k.name == NamespacedName(k);
    } else {
      Text.CutHasNoSeparator(NamespacedName(k), '/');
    }
  }

  lemma WrittenIsNotBlank(k: Key)
    ensures !Blank(NamespacedName(k))
  {
    assert NamespacedName(k)[|k.ns|] == '/';
    assert '/' in NamespacedName(k);
    assert !IsSpace('/');
  }

  /** The ownership round trip, whatever other annotations there were: the
      written owner is read back, as an owner of that type and no other, and
      unrelated annotations are untouched. */
  lemma OwnerRoundTrip(a: Annotations, ownerType: string, k: Key)
    requires '/' !in k.ns
    ensures OwnerOf(SetOwner(a, ownerType, k), ownerType) == Some(k)
    ensures forall t :: t != ownerType ==> OwnerOf(SetOwner(a, ownerType, k), t) == None
    ensures forall s <- a :: s != TypeAnnotation() && s != NameAnnotation() ==>
              s in SetOwner(a, ownerType, k) && SetOwner(a, ownerType, k)[s] == a[s]
  {
    ParseWritten(k);
    WrittenIsNotBlank(k);
    assert TypeAnnotation() != NameAnnotation() by { assert |TypeAnnotation()| != |NameAnnotation()|; }
  }

  /** The text names k: as namespace/name, or as a name without a namespace. */
  predicate Denotes(s: string, k: Key) {
    if '/' in s then '/' !in k.ns && s == k.ns + "/" + k.name else k == Key("", s)
  }

  /** Whatever the annotations say: they name an owner exactly when the type is the one
      asked for and the name is more than white space, and then the one it denotes. */
  lemma OwnerIs(a: Annotations, ownerType: string, k: Key)
    ensures OwnerOf(a, ownerType) == Some(k) <==>
            && "operator-sdk/primary-resource-type" in a && a["operator-sdk/primary-resource-type"] == ownerType
            && "operator-sdk/primary-resource" in a && Denotes(a["operator-sdk/primary-resource"], k)
            && exists c <- a["operator-sdk/primary-resource"] ::
                 c !in " \t\n\r" && c as int !in [0x0B, 0x0C, 0x85, 0xA0]
  {
    assert TypeAnnotation() == "operator-sdk/primary-resource-type";
    assert NameAnnotation() == "operator-sdk/primary-resource";
    hide TypeAnnotation, NameAnnotation;
    if NameAnnotation() in a {
      var s := a[NameAnnotation()];
      if '/' in s {
        Text.CutRejoins(s, '/');
        Text.CutHasNoSeparator(s, '/');
        if '/' !in k.ns && s == k.ns + "/" + k.name { ParseWritten(k); }
      } else {
        Text.CutNowhere(s, '/');
      }
    }
  }

  /** Two owners are never confused: equal annotations name equal owners. */
  lemma OwnersDistinct(j: Key, k: Key)
    requires '/' !in j.ns && '/' !in k.ns
    requires NamespacedName(j) == NamespacedName(k)
    ensures j == k
  {
    ParseWritten(j);
    ParseWritten(k);
  }
}
