# EaaS descriptor to CAMARA manifest: a Dafny model

This project models the three components that carry the logic of the EaaS
onboarding service. The rest of the service is HTTP plumbing.

- **Reference resolver** (`build_app_descriptor_from_repo_payload`,
  `src/app/utils/descriptor_builders.py`), module `DescriptorBuilders`.
  - The Application Repository sends a flat JSON descriptor. In it, containers
    name their image by id and VDUs name their containers by id.
  - The resolver indexes images and containers by id and replaces each
    reference with the record it names. References that cannot be resolved are
    dropped.
  - It renames the misspelt deployment-flavour key `istantiationLevel` to
    `instantiationLevel`, in place, in the caller's dicts.
  - It raises when a required key is missing.
- **Schema translator** (`build_camara_app_manifest` and the `_sanitize_*`
  helpers, `src/app/utils/eaas2camara_builder.py`), modules `Sanitize` and
  `Eaas2Camara`. It builds a CAMARA Edge Application Management `AppManifest`
  from a resolved descriptor:
  - the name, provider, interface ids and component names are forced into
    their `^[A-Za-z][A-Za-z0-9_]{lo,hi}$` grammars;
  - the image path comes from the first image;
  - the CPU and memory of all containers are added up, and non-positive
    totals are floored;
  - virtual connection points are grouped by VDU, and each VDU gets one
    network interface per port of its connection points;
  - the component list is never empty.
- **Token cache** (`TokenManager`, `src/app/utils/token_manager.py`), module
  `TokenCache`. It caches one access token obtained with an OAuth 2.0 Resource
  Owner Password Credentials grant (section 4.3 of RFC 6749). It hands the
  token out until its expiry minus a refresh skew, and refreshes it otherwise.

Each part takes the form of its source:
- The sanitizers are pure functions.
- The loops of the translator and the resolver are methods. Each is proved
  equal to a specification function, and the properties are proved about that
  function.
- `TokenManager` is a class whose methods update its two fields in place.
- The deployment-flavour dicts are objects (`JsonDict`), because the resolver
  changes them in place.

Supporting modules:
- `Wrappers`: `Option` and `Result`.
- `Json`: decoded JSON values and Python truthiness.
- `EaasModels` and `CamaraModels`: the typed records the translator reads and
  writes.
- `Seqs`: generic sequence lemmas, a sum and an all-elements predicate.

## Model

| member | source | states |
|---|---|---|
| Sanitize.ReplaceNonWord | src/app/utils/eaas2camara_builder.py:18 | `re.sub(r'[^A-Za-z0-9_]', '_', s)` keeps the length and yields only word characters |
| Sanitize.SanitizeAppName | src/app/utils/eaas2camara_builder.py:10-34 | the result matches `^[A-Za-z][A-Za-z0-9_]{1,63}$` for every input; the empty input gives `App_1` |
| Sanitize.SanitizeAppProvider | src/app/utils/eaas2camara_builder.py:37-60 | the result matches `^[A-Za-z][A-Za-z0-9_]{7,63}$` for every input, the empty one included |
| Sanitize.SanitizeInterfaceId | src/app/utils/eaas2camara_builder.py:63-83 | the result matches `^[A-Za-z][A-Za-z0-9_]{3,31}$` for every input |
| Sanitize.SanitizeComponentName | src/app/utils/eaas2camara_builder.py:86-88 | component names follow the app-name grammar |
| Sanitize.ReplaceNonWordKeepsWordStrings | src/app/utils/eaas2camara_builder.py:18 | the substitution is the identity on strings of word characters |
| Sanitize.SanitizeAppNameKeepsValid | src/app/utils/eaas2camara_builder.py:17-31 | a name already in the grammar comes back unchanged |
| Sanitize.SanitizeAppNameIdempotent | src/app/utils/eaas2camara_builder.py:10-34 | sanitizing twice equals sanitizing once |
| Sanitize.SanitizeAppProviderKeepsValid | src/app/utils/eaas2camara_builder.py:43-57 | a provider already in the grammar comes back unchanged |
| Sanitize.SanitizeAppProviderIdempotent | src/app/utils/eaas2camara_builder.py:37-60 | sanitizing twice equals sanitizing once |
| Sanitize.SanitizeAppProviderEmpty | src/app/utils/eaas2camara_builder.py:41-42 | the empty provider becomes `Provider_00000000` |
| Sanitize.SanitizeInterfaceIdKeepsValid | src/app/utils/eaas2camara_builder.py:69-80 | an interface id already in the grammar comes back unchanged |
| Sanitize.SanitizeInterfaceIdIdempotent | src/app/utils/eaas2camara_builder.py:63-83 | sanitizing twice equals sanitizing once |
| Sanitize.SanitizeInterfaceIdEmpty | src/app/utils/eaas2camara_builder.py:67-68 | the empty interface id becomes `eth0` |
| Eaas2Camara.ImagePath | src/app/utils/eaas2camara_builder.py:110-119 | the path starts with `docker.io/library/`; with no images it is `docker.io/library/app:latest` |
| Eaas2Camara.ImageName | src/app/utils/eaas2camara_builder.py:115 | the name is the non-empty `swImage`, else `name`, else `app` |
| Eaas2Camara.ImageVersion | src/app/utils/eaas2camara_builder.py:116 | the version is `version`, else `latest` |
| Eaas2Camara.ImagePathUsesFirstImage | src/app/utils/eaas2camara_builder.py:111-119 | the path is `docker.io/library/<name>:<version>` of the first image; later images never change it |
| Eaas2Camara.CpuPoolOf | src/app/utils/eaas2camara_builder.py:146-160 | CPU and memory are the totals, with a total ≤ 0 replaced by 1 (CPU) or 1024 (memory); both are ≥ 1; the topology is one node with exactly that CPU and memory |
| Eaas2Camara.ContainerCpu | src/app/utils/eaas2camara_builder.py:136-139 | a container adds its CPU request, its CPU limit when the request is None, and nothing when both are None |
| Eaas2Camara.ContainerMemory | src/app/utils/eaas2camara_builder.py:142-145 | a container adds its memory limit, its memory request when the limit is None, and nothing when both are None |
| Eaas2Camara.CpuPoolOrderIndependent | src/app/utils/eaas2camara_builder.py:130-149 | two VDU lists that are permutations of each other give the same totals and the same CPU pool |
| Eaas2Camara.TotalsAppend | src/app/utils/eaas2camara_builder.py:130-149 | the totals of two VDU lists put together are the sums of their totals |
| Eaas2Camara.AggregateResources | src/app/utils/eaas2camara_builder.py:130-149 | the nested loop yields the sums over all containers of the CPU request (the limit when the request is None) and of the memory limit (the request when the limit is None) |
| Eaas2Camara.SingleContainerScenario | src/app/utils/eaas2camara_builder.py:110-160 | one nginx 1.25 image and one container with CPU limit 2 and memory limit 512 give the path `docker.io/library/nginx:1.25` and a pool of 2 CPUs and 512 MB on one node |
| Eaas2Camara.ResolveProtocol | src/app/utils/eaas2camara_builder.py:199-215 | an absent or empty protocol is TCP; otherwise the upper-cased value selects the `camara.Protocol` member of that name, and an unknown name gives ANY |
| Eaas2Camara.ResolveProtocolIgnoresCase | src/app/utils/eaas2camara_builder.py:199-215 | the protocol is looked up after upper-casing, so a value and its upper-cased form resolve alike |
| Eaas2Camara.ResolveProtocolExamples | src/app/utils/eaas2camara_builder.py:199-215 | `udp` resolves to UDP and `Tcp` to TCP; `sctp` gives ANY; no protocol gives TCP |
| Eaas2Camara.InterfaceSourceName | src/app/utils/eaas2camara_builder.py:195 | the id is taken from the port's non-empty name, else from `<vduId>_<cpdId>`; it is never empty |
| Eaas2Camara.PortInterface | src/app/utils/eaas2camara_builder.py:194-224 | each port yields an interface with internal visibility and the port's number. Its id is the sanitized port name, or `<vduId>_<cpdId>` when the name is absent or empty, so it is always valid. Its protocol is `ResolveProtocol` of the port's protocol |
| Eaas2Camara.PortInterfaceKeepsValidName | src/app/utils/eaas2camara_builder.py:194-196 | a port whose name already is a valid interface id gets exactly that id |
| Eaas2Camara.PortInterfaces | src/app/utils/eaas2camara_builder.py:192-224 | one interface per port |
| Eaas2Camara.PortInterfacesAt | src/app/utils/eaas2camara_builder.py:192-224 | the k-th interface is the one the k-th port yields, so the order is kept |
| Eaas2Camara.ServiceInterfaces | src/app/utils/eaas2camara_builder.py:190-224 | one interface per port of every service-data entry |
| Eaas2Camara.VcpdInterfaces | src/app/utils/eaas2camara_builder.py:188-224 | one interface per port of every connection point recorded for the VDU |
| Eaas2Camara.PortInterfacesWellFormed | src/app/utils/eaas2camara_builder.py:192-224 | every interface from a list of ports has a valid id and internal visibility |
| Eaas2Camara.ServiceInterfacesWellFormed | src/app/utils/eaas2camara_builder.py:190-224 | every interface from service data has a valid id and internal visibility |
| Eaas2Camara.VcpdInterfacesWellFormed | src/app/utils/eaas2camara_builder.py:188-224 | every interface a VDU gets has a valid id and internal visibility |
| Eaas2Camara.VcpdsOf | src/app/utils/eaas2camara_builder.py:177-181 | the group recorded for a VDU id has one entry per listing of that id over all connection points |
| Eaas2Camara.VcpdsOfSound | src/app/utils/eaas2camara_builder.py:179-181 | a connection point is recorded for a VDU id only if it is in the list and lists that id |
| Eaas2Camara.VcpdsOfComplete | src/app/utils/eaas2camara_builder.py:179-181 | every connection point that lists a VDU id is recorded for it |
| Eaas2Camara.AppendToGroup | src/app/utils/eaas2camara_builder.py:181 | one `setdefault(id, []).append(vcpd)` adds one copy to the group of `id` and leaves every other group unchanged |
| Eaas2Camara.GroupVcpdsByVdu | src/app/utils/eaas2camara_builder.py:177-181 | for every VDU id, the map built by the loop holds the connection points that list it, in list order, once per listing |
| Eaas2Camara.DeriveInterfaces | src/app/utils/eaas2camara_builder.py:186-224 | the triple loop yields exactly the interfaces of the VDU's connection points, in order |
| Eaas2Camara.ComponentName | src/app/utils/eaas2camara_builder.py:227 | a component name is always a valid app name; a VDU name that already is one is kept, and so is the VDU id when the name is absent or empty |
| Eaas2Camara.DerivedComponents | src/app/utils/eaas2camara_builder.py:185-233 | at most one component per VDU |
| Eaas2Camara.DerivedComponentsWellFormed | src/app/utils/eaas2camara_builder.py:226-233 | every derived component has a valid name, at least one interface, and only well-formed interfaces |
| Eaas2Camara.DerivedComponentsAppend | src/app/utils/eaas2camara_builder.py:185-233 | components are derived VDU by VDU in VDU order: the list for a concatenation is the concatenation of the lists |
| Eaas2Camara.DerivedComponentsNonEmpty | src/app/utils/eaas2camara_builder.py:226-233 | a VDU whose connection points carry at least one port gets an interface and yields a component, so the list is not empty |
| Eaas2Camara.DerivedComponentsNone | src/app/utils/eaas2camara_builder.py:226-233 | when no VDU has an interface, no component is derived |
| Eaas2Camara.DerivedComponentsEmpty | src/app/utils/eaas2camara_builder.py:226-242 | no component is derived exactly when no VDU gets an interface |
| Eaas2Camara.ComponentSpec | src/app/utils/eaas2camara_builder.py:226-242 | the component list is never empty; it is the derived list or a single placeholder |
| Eaas2Camara.ComponentSpecFallback | src/app/utils/eaas2camara_builder.py:235-242 | the list is the single placeholder named after the product, with no interfaces, exactly when no VDU gets an interface |
| Eaas2Camara.ComponentSpecWellFormed | src/app/utils/eaas2camara_builder.py:226-242 | every component of the manifest has a valid name and only well-formed interfaces |
| Eaas2Camara.AppManifestOf | src/app/utils/eaas2camara_builder.py:92-258 | no app id, a container package, a valid name and provider, the version passed through unsanitized, a public repo, a standalone Kubernetes pool of at least 1 CPU and 1 MB, and a non-empty list of valid components |
| Eaas2Camara.BuildComponents | src/app/utils/eaas2camara_builder.py:185-233 | given the grouping map, the component loop yields exactly the derived components |
| Eaas2Camara.BuildCamaraAppManifest | src/app/utils/eaas2camara_builder.py:92-258 | the imperative builder returns exactly `AppManifestOf(d)` |
| DescriptorBuilders.FirstMissing | src/app/utils/descriptor_builders.py:20-26 | nothing is missing iff every required key is present; otherwise the result is the first required key, in reading order, that is absent |
| DescriptorBuilders.AsRecords | src/app/utils/descriptor_builders.py:32 | a list is read as records iff every entry is an object, and then entry by entry |
| DescriptorBuilders.Records | src/app/utils/descriptor_builders.py:31 | reading succeeds iff the value is missing, falsy, or a list of objects; a success is the list's objects, in order (none for a falsy value); a failure is `Malformed` naming the key |
| DescriptorBuilders.NoneIfEmpty | src/app/utils/descriptor_builders.py:102-103 | an empty list becomes None and any other list is kept |
| DescriptorBuilders.IndexById | src/app/utils/descriptor_builders.py:35-37 | every entry of an id index is a record of the list whose id is that entry's key |
| DescriptorBuilders.IndexDomain | src/app/utils/descriptor_builders.py:35-37 | an id is in the index exactly when some record carries it |
| DescriptorBuilders.IndexLastWins | src/app/utils/descriptor_builders.py:35-37 | among records that share an id, the index holds the last |
| DescriptorBuilders.ResolveContainer | src/app/utils/descriptor_builders.py:46-52 | `swImageDesc` becomes the indexed image exactly when it is a string id the index knows, and is dropped otherwise; every other key is copied |
| DescriptorBuilders.ResolvedContainers | src/app/utils/descriptor_builders.py:44-53 | one resolved container per raw container |
| DescriptorBuilders.ResolvedContainersAt | src/app/utils/descriptor_builders.py:44-53 | the k-th result is the k-th raw container, resolved: nothing is dropped or reordered |
| DescriptorBuilders.ResolveContainers | src/app/utils/descriptor_builders.py:40-54 | the container loop yields the resolved containers and indexes them by `osContainerDescId`, the last duplicate winning |
| DescriptorBuilders.ResolveIds | src/app/utils/descriptor_builders.py:64-67 | resolving never adds entries |
| DescriptorBuilders.ResolveIdsSound | src/app/utils/descriptor_builders.py:66-67 | every resolved entry is the container of a known string id of the list |
| DescriptorBuilders.ResolveIdsAppend | src/app/utils/descriptor_builders.py:65-67 | ids resolve one by one, in order: resolving a concatenation concatenates the results |
| DescriptorBuilders.ResolveIdsAllKnown | src/app/utils/descriptor_builders.py:65-67 | when every id is a known string, the k-th id yields the k-th container and nothing is dropped |
| DescriptorBuilders.ResolveVdu | src/app/utils/descriptor_builders.py:61-72 | `osContainerDesc` becomes the resolved list (`[]` for a value that is not a list); every other key is copied |
| DescriptorBuilders.ResolvedVdus | src/app/utils/descriptor_builders.py:60-72 | one resolved VDU per raw VDU |
| DescriptorBuilders.ResolvedVdusAt | src/app/utils/descriptor_builders.py:60-72 | the k-th result is the k-th raw VDU, resolved |
| DescriptorBuilders.ResolveVdus | src/app/utils/descriptor_builders.py:57-72 | the nested VDU loop yields exactly the resolved VDUs |
| DescriptorBuilders.RenameAlias | src/app/utils/descriptor_builders.py:92-93 | `istantiationLevel` moves to `instantiationLevel` only when the canonical key is absent; every other key keeps its value; otherwise the dict is unchanged |
| DescriptorBuilders.RenameAliasIdempotent | src/app/utils/descriptor_builders.py:92-93 | applying the fix twice equals applying it once, so a dict listed twice is fixed once |
| DescriptorBuilders.RenamedAll | src/app/utils/descriptor_builders.py:91-96 | the k-th flavour is the k-th dict after the fix |
| DescriptorBuilders.RenameFlavourAliases | src/app/utils/descriptor_builders.py:91-93 | the loop applies the fix to every dict of the caller's list, in place, and touches no other dict |
| DescriptorBuilders.ResolveDescriptor | src/app/utils/descriptor_builders.py:13-107 | the resolver succeeds iff every required key is present and every list key reads as a list of objects (or nothing). A missing required key fails with `MissingField` of the first missing one; otherwise a failure is `Malformed` of the first list key, in reading order, that cannot be read. On success no optional list is `[]` |
| DescriptorBuilders.MissingRequiredKeyFails | src/app/utils/descriptor_builders.py:20-26 | a payload lacking a required key fails with `MissingField` naming a required key it lacks |
| DescriptorBuilders.AppmInfoOptional | src/app/utils/descriptor_builders.py:27 | removing `appmInfo` changes neither success nor failure, nor anything of the result but `appmInfo`, which is then None |
| DescriptorBuilders.RecordsIgnoreOtherKeys | src/app/utils/descriptor_builders.py:31 | reading one list does not depend on the other keys of the payload |
| DescriptorBuilders.ResolvedDescriptorContents | src/app/utils/descriptor_builders.py:20-107 | a successful result holds the scalar keys as given and the images and both connection-point lists as read. Its k-th VDU is the k-th raw VDU with its container ids resolved against the resolved containers (whose image ids are resolved against the images). Its k-th flavour is the k-th dict after the alias fix |
| DescriptorBuilders.BuildAppDescriptor | src/app/utils/descriptor_builders.py:13-107 | the result is `ResolveDescriptor` of the payload and of the flavour dicts as they were; on success every flavour dict has been fixed in place; on failure no dict has changed |
| TokenCache.Refreshed | src/app/utils/token_manager.py:73-87 | a response is taken iff its status is 200 and `access_token` is non-empty. The new state is that token with expiry `now + expires_in` (60 when absent). Otherwise the error is the failed status, or the missing token |
| TokenCache.GetTokenStep | src/app/utils/token_manager.py:42-54 | the endpoint is asked iff no valid token is held. Without a request, the cached token is returned and nothing changes. A returned token is always the one held afterwards, and a failure leaves the state unchanged |
| TokenCache.FirstCallRefreshes | src/app/utils/token_manager.py:35-53 | a fresh manager holds no valid token, so the first `get_token` asks the endpoint |
| TokenCache.CachedTokenServed | src/app/utils/token_manager.py:46-51 | with a valid token, `get_token` returns it, sends nothing and changes nothing |
| TokenCache.RefreshOutcome | src/app/utils/token_manager.py:53-87 | without a valid token, it succeeds exactly when the status is 200 and `access_token` is non-empty. It then stores the token with expiry `now + expires_in` (60 when absent) and returns it; otherwise both fields keep their values |
| TokenCache.ReuseWindow | src/app/utils/token_manager.py:38-54 | after a refresh with lifetime `e`, a later call is served from the cache exactly when it comes before `now + e - skew` |
| TokenCache.ShortLivedTokenRefetched | src/app/utils/token_manager.py:38-54 | a token with `expires_in ≤ skew` is still returned, but the next call refreshes again |
| TokenCache.DefaultReuseWindow | src/app/utils/token_manager.py:80 | with the default skew of 30 (line 23) and no `expires_in`, the token is reused for exactly 30 seconds |
| TokenCache.TokenManager.constructor | src/app/utils/token_manager.py:14-36 | the manager keeps its configuration and starts with no token and expiry 0, invalid at every time |
| TokenCache.TokenManager.IsValid | src/app/utils/token_manager.py:38-40 | valid iff a token is held and `now < expires_at - refresh_skew_seconds` |
| TokenCache.TokenManager.FormData | src/app/utils/token_manager.py:57-66 | the form always carries `grant_type=password`, `client_id`, `username` and `password`; it carries `client_secret` and `scope` exactly when they are non-empty, and nothing else |
| TokenCache.TokenManager.Refresh | src/app/utils/token_manager.py:56-87 | the form is posted to the token URL; on acceptance the fields become the new token and expiry; on failure the error is returned and both fields keep their values |
| TokenCache.TokenManager.GetToken | src/app/utils/token_manager.py:42-54 | the result, the new fields and whether a request was sent are those of `GetTokenStep` on the old fields; any request sent is a password-grant form to the token URL |

## Behaviour as written

The model follows the code in these places, where a reader might expect
otherwise:

- Resource totals prefer the CPU **request** over the CPU limit
  (eaas2camara_builder.py:136-139), but the memory **limit** over the memory
  request (142-145). The fallback happens only when the preferred value is
  None, not when it is non-positive.
- There is no status-to-lifecycle classifier anywhere in the code. The
  status endpoint passes the raw `status` string through, so nothing of the
  kind is modelled.
- Unresolvable image and container references are dropped without any
  signal (descriptor_builders.py:49-50, 66-67). `ResolveContainer` and
  `ResolveIds` state exactly that.
- `get_token` returns a freshly fetched token even when its lifetime does not
  exceed the skew. Such a token is invalid at the moment it is returned, and
  every later call fetches again (`TokenCache.ShortLivedTokenRefetched`). A
  token returned by `get_token` is therefore not guaranteed to stay valid for
  the skew window.

## Left out

- Pydantic validation and conversion. The resolver works on untyped JSON:
  every JSON object is accepted as a record, and ids are looked up as JSON
  values.
  - `ValidationError`s from the `SwImageDesc(**...)`, `OsContainerDesc(**...)`
    and `VDU(**...)` calls are not modelled.
  - The step from the resolver's result to the typed `AppDescriptor` that the
    translator reads is not modelled.
- DescriptorBuilders.Records: the `TypeError` and `AttributeError` of a list
  entry that is not an object, and of a truthy non-list value, are collapsed
  into one `Malformed(key)` error.
- DescriptorBuilders.Payload: the `deploymentFlavour` value is always a list of
  dicts. A non-list value, or a non-dict entry, is not modelled.
- Dict key order is not modelled: records are maps.
- The `getattr` fallbacks of the image lookup (eaas2camara_builder.py:115-116)
  are optional fields. A `name` or `version` attribute that is present but None
  is treated as absent, whereas the source would then write `None` into the
  image path.
- CPU and memory values are integers. The `int()` truncation of a float memory
  value, and float `expires_at`/`expires_in`, are not modelled.
- A non-integer or null `expires_in` (which makes `float()` fail) is not
  modelled. Neither is a response body that is not JSON.
- Eaas2Camara.ResolveProtocol: `str.upper()` is modelled on ASCII letters only.
  Enum-valued protocols (`proto.value`) are the string they carry. The
  `camara.Protocol` members are taken to be `TCP`, `UDP` and `ANY`.
- The unknown-protocol warning, and all other logging.
- TokenManager: the lock and the double-checked locking are not modelled. The
  model is sequential, so the locked re-check gives the same answer as the
  first check.
- TokenManager: the HTTP POST is replaced by its parameters (`TokenRequest`),
  with the endpoint's response as an input. The timeout and headers are not
  modelled.
- TokenManager: the two clock reads of one call are one `now` parameter.
- The FastAPI router, the HTTP clients, the Bearer-header helper,
  configuration and start-up are not part of this model.
- The fields of the CAMARA manifest that the translator leaves None (operating
  system, GPU pool, repo credentials and so on) are dropped from
  `CamaraModels`.
