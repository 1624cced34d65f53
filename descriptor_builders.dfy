/**
  The reference resolver of src/app/utils/descriptor_builders.py
  (`build_app_descriptor_from_repo_payload`). The Application Repository
  delivers an application descriptor as flat JSON in which containers name
  their image by id and VDUs name their containers by id; the resolver
  replaces those ids by the records they name and renames the misspelt
  deployment-flavour key `istantiationLevel`.

  Records stay untyped JSON objects here: the typed records the resolver
  finally builds with pydantic are not part of this model, so a resolved
  reference is the referenced object itself (`Obj(fields)`).
 */
module DescriptorBuilders {
  import opened Wrappers
  import opened Json
  import Seqs

  /** Why the resolver raises before building anything. */
  datatype SchemaError =
    | MissingField(key: string)   // `payload[key]` raises KeyError
    | Malformed(key: string)      // the list under `key` is neither empty nor a list of objects

  /** A deployment-flavour dict of the caller's payload: the one thing the resolver changes in place. */
  class JsonDict {
    var entries: Fields

    constructor (entries: Fields)
      ensures this.entries == entries
    {
      this.entries := entries;
    }
  }

  /**
    The payload: its top-level keys, and the list under `deploymentFlavour`
    as the dicts the caller holds (the same dict may occur more than once).
   */
  datatype Payload = Payload(fields: Fields, deploymentFlavour: seq<JsonDict>)

  /** The keyword arguments of the final `AppDescriptor(...)` call. */
  datatype AppDescriptorArgs = AppDescriptorArgs(
    appDescriptorId: Json,
    appDescriptorExtInvariantId: Json,
    appProvider: Json,
    appProductName: Json,
    appSoftwareVersion: Json,
    appDescriptorVersion: Json,
    appmInfo: Json,
    swImageDesc: Option<seq<Fields>>,
    vdu: Option<seq<Fields>>,
    deploymentFlavour: Option<seq<Fields>>,
    appExtCpd: Option<seq<Fields>>,
    virtualCpd: Option<seq<Fields>>)

  /** The keys read with `payload[...]`, in the order they are read. */
  const RequiredKeys := ["appDescriptorId", "appDescriptorExtInvariantId", "appProvider",
                         "appProductName", "appSoftwareVersion", "appDescriptorVersion"]

  // ---------------------------------------------------------------------------
  // Reading the payload (descriptor_builders.py:20-28, 31, 40, 57, 75, 81)
  // ---------------------------------------------------------------------------

  /** The first of `keys` that the payload lacks, if any. */
  function FirstMissing(fields: Fields, keys: seq<string>): (r: Option<string>)
    ensures r.None? <==> forall i :: 0 <= i < |keys| ==> keys[i] in fields
    ensures r.Some? ==> exists i :: 0 <= i < |keys| && keys[i] == r.value && r.value !in fields
                                    && forall j :: 0 <= j < i ==> keys[j] in fields
  {
    if keys == [] then None
    else if keys[0] !in fields then Some(keys[0])
    else
      var r := FirstMissing(fields, keys[1..]);
      assert forall i :: 0 < i < |keys| ==> keys[i] == keys[1..][i - 1];
      r
  }

  /** The field maps of a list of JSON values, when every one is an object. */
  function AsRecords(items: seq<Json>): (r: Option<seq<Fields>>)
    ensures r.Some? <==> forall i :: 0 <= i < |items| ==> items[i].Obj?
    ensures r.Some? ==> |r.value| == |items| && forall i :: 0 <= i < |items| ==> r.value[i] == items[i].fields
  {
    if items == [] then Some([])
    else
      match AsRecords(items[..|items| - 1])
      case None => None
      case Some(front) =>
        var last := items[|items| - 1];
        if last.Obj? then Some(front + [last.fields]) else None
  }

  /**
    `payload.get(key) or []`, iterated as a list of objects: a missing or
    falsy value gives no records, a list of objects gives their fields, and
    anything else makes the resolver raise.
   */
  function Records(fields: Fields, key: string): (r: Result<seq<Fields>, SchemaError>)
    ensures !Truthy(Get(fields, key)) ==> r == Success([])
    ensures r.Failure? ==> r.error == Malformed(key)
    ensures var v := Get(fields, key);
      r.Success? <==> !Truthy(v) || (v.Arr? && forall i :: 0 <= i < |v.items| ==> v.items[i].Obj?)
    ensures r.Success? && Truthy(Get(fields, key)) ==>
      Get(fields, key).Arr? && |r.value| == |Get(fields, key).items|
      && forall i :: 0 <= i < |r.value| ==> Get(fields, key).items[i] == Obj(r.value[i])
  {
    var v := Get(fields, key);
    if !Truthy(v) then Success([])
    else if v.Arr? then
      match AsRecords(v.items)
      case Some(records) => Success(records)
      case None => Failure(Malformed(key))
    else Failure(Malformed(key))
  }

  /** `xs or None`: an empty list becomes None. */
  function NoneIfEmpty(xs: seq<Fields>): (r: Option<seq<Fields>>)
    ensures r.None? <==> xs == []
    ensures r.Some? ==> r.value == xs
  {
    if xs == [] then None else Some(xs)
  }

  // ---------------------------------------------------------------------------
  // Indexing by id (descriptor_builders.py:35-37, 42, 54)
  // ---------------------------------------------------------------------------

  /** `{r[idKey]: r for r in records}`, written entry by entry: a later record replaces an earlier one with the same id. */
  function IndexById(records: seq<Fields>, idKey: string): (r: map<Json, Fields>)
    ensures forall id :: id in r ==> r[id] in records && Get(r[id], idKey) == id
  {
    if records == [] then map[]
    else
      var last := records[|records| - 1];
      var front := records[..|records| - 1];
      assert forall x :: x in front ==> x in records;
      IndexById(front, idKey)[Get(last, idKey) := last]
  }

  /** An id is in the index exactly when some record carries it. */
  lemma {:induction false} IndexDomain(records: seq<Fields>, idKey: string, id: Json)
    ensures id in IndexById(records, idKey) <==> exists k :: 0 <= k < |records| && Get(records[k], idKey) == id
  {
    if records != [] {
      var front := records[..|records| - 1];
      IndexDomain(front, idKey, id);
      if id in IndexById(front, idKey) {
        var k :| 0 <= k < |front| && Get(front[k], idKey) == id;
        assert records[k] == front[k];
      }
      if exists k :: 0 <= k < |records| && Get(records[k], idKey) == id {
        var k :| 0 <= k < |records| && Get(records[k], idKey) == id;
        if k < |front| {
          assert front[k] == records[k];
        }
      }
    }
  }

  /** When several records share an id, the index holds the last of them. */
  lemma {:induction false} IndexLastWins(records: seq<Fields>, idKey: string, k: nat)
    requires k < |records|
    requires forall j :: k < j < |records| ==> Get(records[j], idKey) != Get(records[k], idKey)
    ensures Get(records[k], idKey) in IndexById(records, idKey)
    ensures IndexById(records, idKey)[Get(records[k], idKey)] == records[k]
  {
    if k < |records| - 1 {
      var front := records[..|records| - 1];
      assert forall j :: k < j < |front| ==> front[j] == records[j];
      IndexLastWins(front, idKey, k);
      assert front[k] == records[k];
    }
  }

  // ---------------------------------------------------------------------------
  // Containers (descriptor_builders.py:40-54)
  // ---------------------------------------------------------------------------

  /**
    A container with its image reference resolved: `swImageDesc` becomes the
    image with that id when it is a string the index knows, and is dropped
    otherwise; every other key is copied.
   */
  function ResolveContainer(oc: Fields, images: map<Json, Fields>): (r: Fields)
    ensures "swImageDesc" in r <==> Get(oc, "swImageDesc").Str? && Get(oc, "swImageDesc") in images
    ensures "swImageDesc" in r ==> r["swImageDesc"] == Obj(images[Get(oc, "swImageDesc")])
    ensures forall k :: k != "swImageDesc" ==> (k in r <==> k in oc)
    ensures forall k :: k != "swImageDesc" && k in oc ==> r[k] == oc[k]
  {
    var swId := Get(oc, "swImageDesc");
    var data := oc - {"swImageDesc"};
    if swId.Str? && swId in images then data["swImageDesc" := Obj(images[swId])] else data
  }

  /** The resolved containers, one per raw container, in order. */
  function ResolvedContainers(raws: seq<Fields>, images: map<Json, Fields>): (r: seq<Fields>)
    ensures |r| == |raws|
  {
    if raws == [] then []
    else ResolvedContainers(raws[..|raws| - 1], images) + [ResolveContainer(raws[|raws| - 1], images)]
  }

  /** No container is dropped or reordered: the k-th result is the k-th raw container, resolved. */
  lemma {:induction false} ResolvedContainersAt(raws: seq<Fields>, images: map<Json, Fields>, k: nat)
    requires k < |raws|
    ensures ResolvedContainers(raws, images)[k] == ResolveContainer(raws[k], images)
  {
    if k < |raws| - 1 {
      ResolvedContainersAt(raws[..|raws| - 1], images, k);
    }
  }

  lemma ResolvedContainersStep(raws: seq<Fields>, images: map<Json, Fields>, i: nat)
    requires i < |raws|
    ensures ResolvedContainers(raws[..i + 1], images) == ResolvedContainers(raws[..i], images) + [ResolveContainer(raws[i], images)]
  {
    Seqs.PrefixStep(raws, i);
  }

  lemma IndexByIdStep(records: seq<Fields>, idKey: string, i: nat)
    requires i < |records|
    ensures IndexById(records[..i + 1], idKey) == IndexById(records[..i], idKey)[Get(records[i], idKey) := records[i]]
  {
    Seqs.PrefixStep(records, i);
  }

  /**
    The container loop, descriptor_builders.py:44-54: resolves each container
    and records it under its `osContainerDescId`.
   */
  method ResolveContainers(raws: seq<Fields>, images: map<Json, Fields>)
    returns (containers: seq<Fields>, byId: map<Json, Fields>)
    ensures containers == ResolvedContainers(raws, images)
    ensures byId == IndexById(containers, "osContainerDescId")
  {
    containers, byId := [], map[];
    var i := 0;
    while i < |raws|
      invariant 0 <= i <= |raws|
      invariant containers == ResolvedContainers(raws[..i], images)
      invariant byId == IndexById(containers, "osContainerDescId")
    {
      var oc := raws[i];
      var swId := Get(oc, "swImageDesc");
      var data := oc - {"swImageDesc"};
      if swId.Str? && swId in images {
        data := data["swImageDesc" := Obj(images[swId])];
      }
      ResolvedContainersStep(raws, images, i);
      IndexByIdStep(containers + [data], "osContainerDescId", |containers|);
      Seqs.TakeAll(containers + [data]);
      containers := containers + [data];
      byId := byId[Get(data, "osContainerDescId") := data];
      i := i + 1;
    }
    Seqs.TakeAll(raws);
  }

  // ---------------------------------------------------------------------------
  // VDUs (descriptor_builders.py:57-72)
  // ---------------------------------------------------------------------------

  /** The container ids a VDU lists: `v.get("osContainerDesc") or []`, kept only when it is a list. */
  function ContainerIds(v: Fields): seq<Json> {
    var ids := Get(v, "osContainerDesc");
    if ids.Arr? then ids.items else []
  }

  /** The containers a list of ids names, in order and with repeats; ids that are not known strings are dropped. */
  function ResolveIds(ids: seq<Json>, byId: map<Json, Fields>): (r: seq<Json>)
    ensures |r| <= |ids|
  {
    if ids == [] then []
    else
      var id := ids[|ids| - 1];
      ResolveIds(ids[..|ids| - 1], byId) + (if id.Str? && id in byId then [Obj(byId[id])] else [])
  }

  /** Every resolved entry is the container of some known string id of the list. */
  lemma {:induction false} ResolveIdsSound(ids: seq<Json>, byId: map<Json, Fields>, k: nat)
    requires k < |ResolveIds(ids, byId)|
    ensures exists j :: 0 <= j < |ids| && ids[j].Str? && ids[j] in byId && ResolveIds(ids, byId)[k] == Obj(byId[ids[j]])
  {
    var front := ids[..|ids| - 1];
    var id := ids[|ids| - 1];
    if k < |ResolveIds(front, byId)| {
      ResolveIdsSound(front, byId, k);
      var j :| 0 <= j < |front| && front[j].Str? && front[j] in byId && ResolveIds(front, byId)[k] == Obj(byId[front[j]]);
      assert front[j] == ids[j];
    } else {
      assert ResolveIds(ids, byId)[k] == Obj(byId[id]);
    }
  }

  /** Resolution goes id by id: resolving a concatenation resolves each part. */
  lemma {:induction false} ResolveIdsAppend(a: seq<Json>, b: seq<Json>, byId: map<Json, Fields>)
    ensures ResolveIds(a + b, byId) == ResolveIds(a, byId) + ResolveIds(b, byId)
  {
    if b == [] {
      Seqs.AppendNil(a);
      Seqs.AppendNil(ResolveIds(a, byId));
    } else {
      ResolveIdsAppend(a, b[..|b| - 1], byId);
      Seqs.AppendDropLast(a, b);
      var last := b[|b| - 1];
      var tail := if last.Str? && last in byId then [Obj(byId[last])] else [];
      Seqs.AppendAssoc(ResolveIds(a, byId), ResolveIds(b[..|b| - 1], byId), tail);
    }
  }

  /** When every id is a known string, nothing is dropped and the k-th id yields the k-th container. */
  lemma {:induction false} ResolveIdsAllKnown(ids: seq<Json>, byId: map<Json, Fields>, k: nat)
    requires forall j :: 0 <= j < |ids| ==> ids[j].Str? && ids[j] in byId
    requires k < |ids|
    ensures |ResolveIds(ids, byId)| == |ids|
    ensures ResolveIds(ids, byId)[k] == Obj(byId[ids[k]])
  {
    var front := ids[..|ids| - 1];
    assert forall j :: 0 <= j < |front| ==> front[j] == ids[j];
    if k < |front| {
      ResolveIdsAllKnown(front, byId, k);
    } else if front != [] {
      ResolveIdsAllKnown(front, byId, 0);
    }
  }

  /**
    A VDU with its container ids replaced by the containers they name; every
    other key is copied.
   */
  function ResolveVdu(v: Fields, byId: map<Json, Fields>): (r: Fields)
    ensures "osContainerDesc" in r && r["osContainerDesc"] == Arr(ResolveIds(ContainerIds(v), byId))
    ensures forall k :: k != "osContainerDesc" ==> (k in r <==> k in v)
    ensures forall k :: k != "osContainerDesc" && k in v ==> r[k] == v[k]
  {
    (v - {"osContainerDesc"})["osContainerDesc" := Arr(ResolveIds(ContainerIds(v), byId))]
  }

  /** The resolved VDUs, one per raw VDU, in order. */
  function ResolvedVdus(raws: seq<Fields>, byId: map<Json, Fields>): (r: seq<Fields>)
    ensures |r| == |raws|
  {
    if raws == [] then []
    else ResolvedVdus(raws[..|raws| - 1], byId) + [ResolveVdu(raws[|raws| - 1], byId)]
  }

  /** No VDU is dropped or reordered: the k-th result is the k-th raw VDU, resolved. */
  lemma {:induction false} ResolvedVdusAt(raws: seq<Fields>, byId: map<Json, Fields>, k: nat)
    requires k < |raws|
    ensures ResolvedVdus(raws, byId)[k] == ResolveVdu(raws[k], byId)
  {
    if k < |raws| - 1 {
      ResolvedVdusAt(raws[..|raws| - 1], byId, k);
    }
  }

  lemma ResolvedVdusStep(raws: seq<Fields>, byId: map<Json, Fields>, i: nat)
    requires i < |raws|
    ensures ResolvedVdus(raws[..i + 1], byId) == ResolvedVdus(raws[..i], byId) + [ResolveVdu(raws[i], byId)]
  {
    Seqs.PrefixStep(raws, i);
  }

  lemma ResolveIdsStep(ids: seq<Json>, byId: map<Json, Fields>, j: nat)
    requires j < |ids|
    ensures ResolveIds(ids[..j + 1], byId)
            == ResolveIds(ids[..j], byId) + (if ids[j].Str? && ids[j] in byId then [Obj(byId[ids[j]])] else [])
  {
    Seqs.PrefixStep(ids, j);
  }

  /** The VDU loop, descriptor_builders.py:60-72. */
  method ResolveVdus(raws: seq<Fields>, byId: map<Json, Fields>) returns (vdus: seq<Fields>)
    ensures vdus == ResolvedVdus(raws, byId)
  {
    vdus := [];
    var i := 0;
    while i < |raws|
      invariant 0 <= i <= |raws|
      invariant vdus == ResolvedVdus(raws[..i], byId)
    {
      var v := raws[i];
      var ocIds := Get(v, "osContainerDesc");
      var resolved: seq<Json> := [];
      if ocIds.Arr? {
        var ids := ocIds.items;
        var j := 0;
        while j < |ids|
          invariant 0 <= j <= |ids|
          invariant resolved == ResolveIds(ids[..j], byId)
        {
          var id := ids[j];
          ResolveIdsStep(ids, byId, j);
          if id.Str? && id in byId {
            resolved := resolved + [Obj(byId[id])];
          } else {
            Seqs.AppendNil(resolved);
          }
          j := j + 1;
        }
        Seqs.TakeAll(ids);
      }
      var data := (v - {"osContainerDesc"})["osContainerDesc" := Arr(resolved)];
      ResolvedVdusStep(raws, byId, i);
      vdus := vdus + [data];
      i := i + 1;
    }
    Seqs.TakeAll(raws);
  }

  // ---------------------------------------------------------------------------
  // Deployment flavours (descriptor_builders.py:87-97)
  // ---------------------------------------------------------------------------

  /**
    The alias fix: `istantiationLevel` moves to `instantiationLevel` when
    only the misspelt key is present; otherwise the dict is left alone.
   */
  function RenameAlias(entries: Fields): (r: Fields)
    ensures "istantiationLevel" in entries && "instantiationLevel" !in entries ==>
      && "istantiationLevel" !in r
      && "instantiationLevel" in r && r["instantiationLevel"] == entries["istantiationLevel"]
      && forall k :: k != "istantiationLevel" && k != "instantiationLevel" ==> (k in r <==> k in entries)
    ensures forall k :: k in entries && k != "istantiationLevel" && k != "instantiationLevel" ==> k in r && r[k] == entries[k]
    ensures !("istantiationLevel" in entries && "instantiationLevel" !in entries) ==> r == entries
  {
    if "istantiationLevel" in entries && "instantiationLevel" !in entries then
      (entries - {"istantiationLevel"})["instantiationLevel" := entries["istantiationLevel"]]
    else entries
  }

  /** Renaming twice is renaming once, so a dict listed twice ends up renamed once. */
  lemma RenameAliasIdempotent(entries: Fields)
    ensures RenameAlias(RenameAlias(entries)) == RenameAlias(entries)
  {
  }

  /** The current contents of a list of dicts. */
  function EntriesOf(dfs: seq<JsonDict>): (r: seq<Fields>)
    reads set d | d in dfs
    ensures |r| == |dfs| && forall k :: 0 <= k < |dfs| ==> r[k] == dfs[k].entries
  {
    if dfs == [] then [] else EntriesOf(dfs[..|dfs| - 1]) + [dfs[|dfs| - 1].entries]
  }

  /** The flavour records the descriptor receives: each dict after the alias fix. */
  function RenamedAll(entries: seq<Fields>): (r: seq<Fields>)
    ensures |r| == |entries| && forall k :: 0 <= k < |entries| ==> r[k] == RenameAlias(entries[k])
  {
    if entries == [] then [] else RenamedAll(entries[..|entries| - 1]) + [RenameAlias(entries[|entries| - 1])]
  }

  /** The rename loop, descriptor_builders.py:91-93: changes the caller's dicts in place. */
  method RenameFlavourAliases(dfs: seq<JsonDict>)
    modifies set d | d in dfs
    ensures forall d :: d in dfs ==> d.entries == RenameAlias(old(d.entries))
  {
    var i := 0;
    while i < |dfs|
      invariant 0 <= i <= |dfs|
      invariant forall d :: d in dfs ==> d.entries == if d in dfs[..i] then RenameAlias(old(d.entries)) else old(d.entries)
    {
      var df := dfs[i];
      RenameAliasIdempotent(old(df.entries));
      if "istantiationLevel" in df.entries && "instantiationLevel" !in df.entries {
        df.entries := (df.entries - {"istantiationLevel"})["instantiationLevel" := df.entries["istantiationLevel"]];
      }
      assert forall d :: d in dfs[..i + 1] <==> d in dfs[..i] || d == df;
      i := i + 1;
    }
    assert forall d :: d in dfs ==> d in dfs[..i];
  }

  // ---------------------------------------------------------------------------
  // The whole resolver (descriptor_builders.py:13-107)
  // ---------------------------------------------------------------------------

  /** No optional list of the result is an empty list: each is None or non-empty. */
  predicate NoEmptyLists(a: AppDescriptorArgs) {
    && a.swImageDesc != Some([]) && a.vdu != Some([]) && a.deploymentFlavour != Some([])
    && a.appExtCpd != Some([]) && a.virtualCpd != Some([])
  }

  /** The list keys, in the order the resolver reads them. */
  const ListKeyOrder := ["swImageDesc", "osContainerDesc", "vdu", "appExtCpd", "virtualCpd"]

  /** Every list key holds nothing, a falsy value, or a list of objects. */
  predicate ListKeys(fields: Fields) {
    forall i :: 0 <= i < |ListKeyOrder| ==> Records(fields, ListKeyOrder[i]).Success?
  }

  lemma ListKeysEach(fields: Fields)
    ensures ListKeys(fields) <==>
      && Records(fields, "swImageDesc").Success? && Records(fields, "osContainerDesc").Success?
      && Records(fields, "vdu").Success? && Records(fields, "appExtCpd").Success?
      && Records(fields, "virtualCpd").Success?
  {
    assert |ListKeyOrder| == 5;
    assert ListKeyOrder[0] == "swImageDesc" && ListKeyOrder[1] == "osContainerDesc" && ListKeyOrder[2] == "vdu"
      && ListKeyOrder[3] == "appExtCpd" && ListKeyOrder[4] == "virtualCpd";
  }

  /**
    What the resolver returns for the payload keys `fields` and the flavour
    dicts' contents `flavours`, or the first error it raises.
   */
  function ResolveDescriptor(fields: Fields, flavours: seq<Fields>): (r: Result<AppDescriptorArgs, SchemaError>)
    ensures r.Success? <==> FirstMissing(fields, RequiredKeys).None? && ListKeys(fields)
    ensures FirstMissing(fields, RequiredKeys).Some? ==> r == Failure(MissingField(FirstMissing(fields, RequiredKeys).value))
    ensures FirstMissing(fields, RequiredKeys).None? && r.Failure? ==>
      r.error.Malformed? && r.error.key in ListKeyOrder && Records(fields, r.error.key).Failure?
      && forall i :: 0 <= i < |ListKeyOrder| && ListKeyOrder[i] == r.error.key ==>
           forall j :: 0 <= j < i ==> Records(fields, ListKeyOrder[j]).Success?
    ensures r.Success? ==> NoEmptyLists(r.value)
    ensures r.Success? ==> forall i :: 0 <= i < |RequiredKeys| ==> RequiredKeys[i] in fields
  {
    ListKeysEach(fields);
    match FirstMissing(fields, RequiredKeys)
    case Some(key) => Failure(MissingField(key))
    case None =>
      var images :- Records(fields, "swImageDesc");
      var rawContainers :- Records(fields, "osContainerDesc");
      var rawVdus :- Records(fields, "vdu");
      var extCpds :- Records(fields, "appExtCpd");
      var vcpds :- Records(fields, "virtualCpd");
      var containers := ResolvedContainers(rawContainers, IndexById(images, "id"));
      var vdus := ResolvedVdus(rawVdus, IndexById(containers, "osContainerDescId"));
      Success(AppDescriptorArgs(
        Get(fields, "appDescriptorId"), Get(fields, "appDescriptorExtInvariantId"), Get(fields, "appProvider"),
        Get(fields, "appProductName"), Get(fields, "appSoftwareVersion"), Get(fields, "appDescriptorVersion"),
        Get(fields, "appmInfo"),
        NoneIfEmpty(images), NoneIfEmpty(vdus), NoneIfEmpty(RenamedAll(flavours)),
        NoneIfEmpty(extCpds), NoneIfEmpty(vcpds)))
  }

  /** A payload that lacks a required key fails, naming a required key it lacks. */
  lemma MissingRequiredKeyFails(fields: Fields, flavours: seq<Fields>, key: string)
    requires key in RequiredKeys && key !in fields
    ensures ResolveDescriptor(fields, flavours).Failure?
    ensures ResolveDescriptor(fields, flavours).error.MissingField?
    ensures ResolveDescriptor(fields, flavours).error.key in RequiredKeys
    ensures ResolveDescriptor(fields, flavours).error.key !in fields
  {
  }

  /** Lookups of keys other than `appmInfo` do not see it. */
  lemma {:induction false} FirstMissingWithoutAppmInfo(fields: Fields, keys: seq<string>)
    requires forall i :: 0 <= i < |keys| ==> keys[i] != "appmInfo"
    ensures FirstMissing(fields - {"appmInfo"}, keys) == FirstMissing(fields, keys)
  {
    if keys != [] {
      FirstMissingWithoutAppmInfo(fields, keys[1..]);
    }
  }

  /** `appmInfo` is optional: removing it changes nothing but the `appmInfo` of the result, which is then None. */
  lemma AppmInfoOptional(fields: Fields, flavours: seq<Fields>)
    ensures ResolveDescriptor(fields - {"appmInfo"}, flavours).Success? <==> ResolveDescriptor(fields, flavours).Success?
    ensures ResolveDescriptor(fields - {"appmInfo"}, flavours).Success? ==>
      ResolveDescriptor(fields - {"appmInfo"}, flavours).value
        == ResolveDescriptor(fields, flavours).value.(appmInfo := Null)
  {
    var f' := fields - {"appmInfo"};
    FirstMissingWithoutAppmInfo(fields, RequiredKeys);
    assert forall k :: k != "appmInfo" ==> Get(f', k) == Get(fields, k);
    RecordsIgnoreOtherKeys(fields, "appmInfo", "swImageDesc");
    RecordsIgnoreOtherKeys(fields, "appmInfo", "osContainerDesc");
    RecordsIgnoreOtherKeys(fields, "appmInfo", "vdu");
    RecordsIgnoreOtherKeys(fields, "appmInfo", "appExtCpd");
    RecordsIgnoreOtherKeys(fields, "appmInfo", "virtualCpd");
  }

  /** Reading a list does not depend on the other keys of the payload. */
  lemma RecordsIgnoreOtherKeys(fields: Fields, other: string, key: string)
    requires other != key
    ensures Records(fields - {other}, key) == Records(fields, key)
  {
    assert Get(fields - {other}, key) == Get(fields, key);
  }

  /**
    What a successful result holds: the scalar keys as given; the images, the
    connection points and the external connection points as read; every VDU
    with its container ids replaced by the resolved containers (each with its
    image id replaced by the image), VDU by VDU in payload order; every
    flavour after the alias fix, in order.
   */
  lemma ResolvedDescriptorContents(fields: Fields, flavours: seq<Fields>)
    requires ResolveDescriptor(fields, flavours).Success?
    ensures var a := ResolveDescriptor(fields, flavours).value;
      var images := Records(fields, "swImageDesc").value;
      var containers := ResolvedContainers(Records(fields, "osContainerDesc").value, IndexById(images, "id"));
      var rawVdus := Records(fields, "vdu").value;
      && a.appDescriptorId == Get(fields, "appDescriptorId") && a.appProvider == Get(fields, "appProvider")
      && a.appProductName == Get(fields, "appProductName") && a.appSoftwareVersion == Get(fields, "appSoftwareVersion")
      && a.appDescriptorExtInvariantId == Get(fields, "appDescriptorExtInvariantId")
      && a.appDescriptorVersion == Get(fields, "appDescriptorVersion") && a.appmInfo == Get(fields, "appmInfo")
      && a.swImageDesc.GetOr([]) == images
      && a.appExtCpd.GetOr([]) == Records(fields, "appExtCpd").value
      && a.virtualCpd.GetOr([]) == Records(fields, "virtualCpd").value
      && |a.vdu.GetOr([])| == |rawVdus|
      && (forall k :: 0 <= k < |rawVdus| ==>
            a.vdu.GetOr([])[k] == ResolveVdu(rawVdus[k], IndexById(containers, "osContainerDescId")))
      && |a.deploymentFlavour.GetOr([])| == |flavours|
      && (forall k :: 0 <= k < |flavours| ==> a.deploymentFlavour.GetOr([])[k] == RenameAlias(flavours[k]))
  {
    var images := Records(fields, "swImageDesc").value;
    var containers := ResolvedContainers(Records(fields, "osContainerDesc").value, IndexById(images, "id"));
    var rawVdus := Records(fields, "vdu").value;
    forall k | 0 <= k < |rawVdus|
      ensures ResolvedVdus(rawVdus, IndexById(containers, "osContainerDescId"))[k]
              == ResolveVdu(rawVdus[k], IndexById(containers, "osContainerDescId"))
    {
      ResolvedVdusAt(rawVdus, IndexById(containers, "osContainerDescId"), k);
    }
  }

  /**
    `build_app_descriptor_from_repo_payload`: the result is the one
    `ResolveDescriptor` gives for the flavour dicts as they were; on success
    each flavour dict has had the alias fix applied in place, and on failure
    no dict has been touched.
   */
  method BuildAppDescriptor(payload: Payload) returns (r: Result<AppDescriptorArgs, SchemaError>)
    modifies set d | d in payload.deploymentFlavour
    ensures r == ResolveDescriptor(payload.fields, old(EntriesOf(payload.deploymentFlavour)))
    ensures r.Success? ==> forall d :: d in payload.deploymentFlavour ==> d.entries == RenameAlias(old(d.entries))
    ensures r.Failure? ==> forall d :: d in payload.deploymentFlavour ==> d.entries == old(d.entries)
  {
    var fields := payload.fields;
    var missing := FirstMissing(fields, RequiredKeys);
    if missing.Some? {
      return Failure(MissingField(missing.value));
    }
    var images :- Records(fields, "swImageDesc");
    var imageIndex := IndexById(images, "id");
    var rawContainers :- Records(fields, "osContainerDesc");
    var containers, containerIndex := ResolveContainers(rawContainers, imageIndex);
    var rawVdus :- Records(fields, "vdu");
    var vdus := ResolveVdus(rawVdus, containerIndex);
    var extCpds :- Records(fields, "appExtCpd");
    var vcpds :- Records(fields, "virtualCpd");

    ghost var before := EntriesOf(payload.deploymentFlavour);
    RenameFlavourAliases(payload.deploymentFlavour);
    var flavours := EntriesOf(payload.deploymentFlavour);
    assert flavours == RenamedAll(before);

    r := Success(AppDescriptorArgs(
      Get(fields, "appDescriptorId"), Get(fields, "appDescriptorExtInvariantId"), Get(fields, "appProvider"),
      Get(fields, "appProductName"), Get(fields, "appSoftwareVersion"), Get(fields, "appDescriptorVersion"),
      Get(fields, "appmInfo"),
      NoneIfEmpty(images), NoneIfEmpty(vdus), NoneIfEmpty(flavours),
      NoneIfEmpty(extCpds), NoneIfEmpty(vcpds)));
  }
}
