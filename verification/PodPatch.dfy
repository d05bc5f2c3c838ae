/**
 * The sidecar injector's patch generator (pkg/injector/pod_patch.go): what it emits for a pod, and
 * what the pod is once the emitted operations have been applied to the raw admission object.
 */
module PodPatch {
  import opened Wrappers
  import opened JsonPatch

  const SIDECAR_NAME := "rusid"
  const ENABLED_KEY := "rusi.io/enabled"
  const APP_ID_KEY := "rusi.io/app-id"
  const PORT_NAME := "RUSI_GRPC_PORT"
  const PORT_VALUE := "50003"
  const CONTAINERS_PATH := "/spec/containers"
  const INIT_CONTAINERS_PATH := "/spec/initContainers"
  const RUNTIME_LABEL := "app-runtime"

  /** The environment variable every application container gets. */
  const PORT_ENV := Obj(map["name" := Str(PORT_NAME), "value" := Str(PORT_VALUE)])

  // ---------------------------------------------------------------------------------------------
  // Decoding the raw object

  /** The decoded parts the generator looks at. */
  datatype Container = Container(name: string, env: seq<string>)
  datatype Pod = Pod(name: string, annotations: map<string, string>,
                     containers: seq<Container>, initContainers: seq<Container>)

  /** A string member: null and missing read as "". */
  function DecodeString(j: Json): Option<string> {
    match j
    case Null => Some("")
    case Str(s) => Some(s)
    case _ => None
  }

  predicate ObjectOrNull(j: Json) {
    j.Obj? || j.Null?
  }

  function Elements(j: Json): seq<Json> {
    if j.Arr? then j.elems else []
  }

  function DecodeEnv(elems: seq<Json>): (r: Option<seq<string>>)
    ensures r.Some? ==> |r.value| == |elems|
  {
    if elems == [] then Some([])
    else
      var init, last := DecodeEnv(elems[..|elems| - 1]), elems[|elems| - 1];
      var name := DecodeString(Member(last, "name"));
      if init.None? || !ObjectOrNull(last) || name.None? || DecodeString(Member(last, "value")).None? then None
      else Some(init.value + [name.value])
  }

  function DecodeContainer(j: Json): Option<Container> {
    var name, env := DecodeString(Member(j, "name")), Member(j, "env");
    if !ObjectOrNull(j) || name.None? || !(env.Arr? || env.Null?) then None
    else
      var names := DecodeEnv(Elements(env));
      if names.None? then None else Some(Container(name.value, names.value))
  }

  function DecodeContainers(elems: seq<Json>): (r: Option<seq<Container>>)
    ensures r.Some? <==> forall i :: 0 <= i < |elems| ==> DecodeContainer(elems[i]).Some?
    ensures r.Some? ==> |r.value| == |elems| &&
                        forall i :: 0 <= i < |elems| ==> r.value[i] == DecodeContainer(elems[i]).value
  {
    if elems == [] then Some([])
    else
      var init, last := DecodeContainers(elems[..|elems| - 1]), DecodeContainer(elems[|elems| - 1]);
      if init.None? || last.None? then None else Some(init.value + [last.value])
  }

  predicate StringsOnly(j: Json) {
    j.Null? || (j.Obj? && forall k :: k in j.members ==> DecodeString(j.members[k]).Some?)
  }

  function Strings(j: Json): map<string, string>
    requires StringsOnly(j)
  {
    if j.Null? then map[] else map k | k in j.members :: DecodeString(j.members[k]).value
  }

  function ContainerList(raw: Json, key: string): Json {
    Member(Member(raw, "spec"), key)
  }

  function DecodePod(raw: Json): Option<Pod> {
    var meta, spec := Member(raw, "metadata"), Member(raw, "spec");
    var containers, inits := ContainerList(raw, "containers"), ContainerList(raw, "initContainers");
    var name, notes := DecodeString(Member(meta, "name")), Member(meta, "annotations");
    if !ObjectOrNull(raw) || !ObjectOrNull(meta) || !ObjectOrNull(spec) || name.None?
       || !StringsOnly(notes) || !StringsOnly(Member(meta, "labels"))
       || !(containers.Arr? || containers.Null?) || !(inits.Arr? || inits.Null?) then None
    else
      var cs, ics := DecodeContainers(Elements(containers)), DecodeContainers(Elements(inits));
      if cs.None? || ics.None? then None else Some(Pod(name.value, Strings(notes), cs.value, ics.value))
  }

  // ---------------------------------------------------------------------------------------------
  // Reading the annotations

  function ToLower(s: string): (r: string)
    ensures |r| == |s|
  {
    if s == "" then ""
    else [if 'A' <= s[0] <= 'Z' then (s[0] as int + 32) as char else s[0]] + ToLower(s[1..])
  }

  predicate Enabled(annotations: map<string, string>) {
    ENABLED_KEY in annotations && ToLower(annotations[ENABLED_KEY]) in {"y", "yes", "true", "on", "1"}
  }

  function AppId(pod: Pod): string {
    if APP_ID_KEY in pod.annotations && pod.annotations[APP_ID_KEY] != "" then pod.annotations[APP_ID_KEY] else pod.name
  }

  predicate HasSidecar(pod: Pod) {
    (exists c :: c in pod.containers && c.name == SIDECAR_NAME) ||
    (exists c :: c in pod.initContainers && c.name == SIDECAR_NAME)
  }

  // ---------------------------------------------------------------------------------------------
  // The generator

  datatype InjectError = MalformedPod | EmptyAppId

  /** The sidecar container: its name and any other members. */
  function Sidecar(details: map<string, Json>): Json {
    Obj(details["name" := Str(SIDECAR_NAME)])
  }

  function EnvPath(i: nat): string {
    CONTAINERS_PATH + "/" + Itoa(i) + "/env"
  }

  function PortOps(i: nat, c: Container): seq<PatchOperation> {
    if c.env == [] then [PatchOperation("add", EnvPath(i), Arr([PORT_ENV]))]
    else if PORT_NAME in c.env then []
    else [PatchOperation("add", EnvPath(i) + "/-", PORT_ENV)]
  }

  function EnvOps(containers: seq<Container>): seq<PatchOperation> {
    if containers == [] then []
    else EnvOps(containers[..|containers| - 1]) + PortOps(|containers| - 1, containers[|containers| - 1])
  }

  function SidecarOp(pod: Pod, sidecar: Json, asInit: bool): PatchOperation {
    var path := if asInit then INIT_CONTAINERS_PATH else CONTAINERS_PATH;
    if (if asInit then pod.initContainers else pod.containers) == []
    then PatchOperation("add", path, Arr([sidecar]))
    else PatchOperation("add", path + "/-", sidecar)
  }

  const LABEL_OP := PatchOperation("add", "/metadata/labels/app-runtime", Str("rusi"))

  function PatchFor(raw: Json, details: map<string, Json>, asInit: bool): Result<seq<PatchOperation>, InjectError> {
    var pod := DecodePod(raw);
    if pod.None? then Err(MalformedPod)
    else if !Enabled(pod.value.annotations) || HasSidecar(pod.value) then Ok([])
    else if AppId(pod.value) == "" then Err(EmptyAppId)
    else Ok([SidecarOp(pod.value, Sidecar(details), asInit), LABEL_OP] + EnvOps(pod.value.containers))
  }

  function Values(addEnv: seq<(string, Json)>): seq<Json> {
    seq(|addEnv|, k requires 0 <= k < |addEnv| => addEnv[k].1)
  }

  /** One append for each variable whose name the container does not use yet. */
  function Missing(envs: seq<string>, addEnv: seq<(string, Json)>, target: string): seq<PatchOperation> {
    if addEnv == [] then []
    else
      var init, last := addEnv[..|addEnv| - 1], addEnv[|addEnv| - 1];
      Missing(envs, init, target) + (if last.0 in envs then [] else [PatchOperation("add", target, last.1)])
  }

  /** getEnvPatchOperations for the port variable, with the source's two loops. */
  method GetEnvPatchOperations(envs: seq<string>, addEnv: seq<(string, Json)>, path: string)
    returns (patchOps: seq<PatchOperation>)
    ensures envs == [] ==> patchOps == [PatchOperation("add", path, Arr(Values(addEnv)))]
    ensures envs != [] ==> patchOps == Missing(envs, addEnv, path + "/-")
  {
    if |envs| == 0 {
      return [PatchOperation("add", path, Arr(Values(addEnv)))];
    }
    var target := path + "/-";
    patchOps := [];
    for k := 0 to |addEnv|
      invariant patchOps == Missing(envs, addEnv[..k], target)
    {
      var found := false;
      for m := 0 to |envs|
        invariant found <==> addEnv[k].0 in envs[..m]
      {
        if envs[m] == addEnv[k].0 {
          found := true;
        }
      }
      assert envs[..|envs|] == envs;
      assert addEnv[..k + 1][..k] == addEnv[..k];
      if !found {
        patchOps := patchOps + [PatchOperation("add", target, addEnv[k].1)];
      }
    }
    assert addEnv[..|addEnv|] == addEnv;
  }

  method AddRusiEnvVarsToContainers(containers: seq<Container>) returns (ops: seq<PatchOperation>)
    ensures ops == EnvOps(containers)
  {
    var portEnv := [(PORT_NAME, PORT_ENV)];
    ops := [];
    for i := 0 to |containers|
      invariant ops == EnvOps(containers[..i])
    {
      var more := GetEnvPatchOperations(containers[i].env, portEnv, EnvPath(i));
      assert portEnv[..0] == [] && Values(portEnv) == [PORT_ENV];
      assert more == PortOps(i, containers[i]);
      assert containers[..i + 1][..i] == containers[..i];
      ops := ops + more;
    }
    assert containers[..|containers|] == containers;
  }

  method PodContainsSidecarContainer(pod: Pod) returns (found: bool)
    ensures found <==> HasSidecar(pod)
  {
    for i := 0 to |pod.containers|
      invariant forall k :: 0 <= k < i ==> pod.containers[k].name != SIDECAR_NAME
    {
      if pod.containers[i].name == SIDECAR_NAME {
        return true;
      }
    }
    for i := 0 to |pod.initContainers|
      invariant forall k :: 0 <= k < i ==> pod.initContainers[k].name != SIDECAR_NAME
    {
      if pod.initContainers[i].name == SIDECAR_NAME {
        return true;
      }
    }
    return false;
  }

  lemma AppendPaths()
    ensures INIT_CONTAINERS_PATH + "/-" == "/spec/initContainers/-"
    ensures CONTAINERS_PATH + "/-" == "/spec/containers/-"
  {
  }

  method GetPodPatchOperations(raw: Json, details: map<string, Json>, asInit: bool)
    returns (r: Result<seq<PatchOperation>, InjectError>)
    ensures r == PatchFor(raw, details, asInit)
  {
    hide DecodePod, Enabled, HasSidecar, AppId, Sidecar;
    var decoded := DecodePod(raw);
    if decoded.None? {
      return Err(MalformedPod);
    }
    var pod := decoded.value;
    var injected := PodContainsSidecarContainer(pod);
    if !Enabled(pod.annotations) || injected {
      return Ok([]);
    }
    if AppId(pod) == "" {
      return Err(EmptyAppId);
    }
    var sidecar := Sidecar(details);
    var envPatchOps := [];
    if |pod.containers| > 0 {
      envPatchOps := AddRusiEnvVarsToContainers(pod.containers);
    }
    var path, value;
    if asInit {
      if |pod.initContainers| == 0 {
        path, value := INIT_CONTAINERS_PATH, Arr([sidecar]);
      } else {
        path, value := "/spec/initContainers/-", sidecar;
      }
    } else {
      if |pod.containers| == 0 {
        path, value := CONTAINERS_PATH, Arr([sidecar]);
      } else {
        path, value := "/spec/containers/-", sidecar;
      }
    }
    var patchOps := [];
    patchOps := patchOps + [PatchOperation("add", path, value), LABEL_OP];
    patchOps := patchOps + envPatchOps;
    AppendPaths();
    assert patchOps == [SidecarOp(pod, sidecar, asInit), LABEL_OP] + EnvOps(pod.containers);
    return Ok(patchOps);
  }

  // ---------------------------------------------------------------------------------------------
  // What the patched pod is

  /** The members the operations reach into exist, and no container is a JSON null. */
  predicate Patchable(raw: Json) {
    && Member(raw, "spec").Obj?
    && Member(Member(raw, "metadata"), "labels").Obj?
    && forall c :: c in Elements(ContainerList(raw, "containers")) ==> c.Obj?
  }

  /** A container with the port variable behind its own variables, unless it defines that name itself. */
  function WithPort(c: Json): Json
    requires DecodeContainer(c).Some? && c.Obj?
  {
    if PORT_NAME in DecodeContainer(c).value.env then c
    else Obj(c.members["env" := Arr(Elements(Member(c, "env")) + [PORT_ENV])])
  }

  function WithPorts(elems: seq<Json>): (r: seq<Json>)
    requires forall i :: 0 <= i < |elems| ==> elems[i].Obj? && DecodeContainer(elems[i]).Some?
    ensures |r| == |elems| && forall i :: 0 <= i < |elems| ==> r[i] == WithPort(elems[i])
  {
    seq(|elems|, i requires 0 <= i < |elems| => WithPort(elems[i]))
  }

  /** The document with one container list replaced. */
  function SetList(doc: Json, key: string, elems: seq<Json>): Json
    requires Member(doc, "spec").Obj?
  {
    Obj(doc.members["spec" := Obj(doc.members["spec"].members[key := Arr(elems)])])
  }

  function SetLabel(doc: Json): Json
    requires Member(Member(doc, "metadata"), "labels").Obj?
  {
    var meta := doc.members["metadata"];
    var labels := meta.members["labels"];
    Obj(doc.members["metadata" := Obj(meta.members["labels" := Obj(labels.members[RUNTIME_LABEL := Str("rusi")])])])
  }

  /** The pod the injector is meant to produce. */
  function Injected(raw: Json, sidecar: Json, asInit: bool): Json
    requires DecodePod(raw).Some? && Patchable(raw)
  {
    var containers, inits := Elements(ContainerList(raw, "containers")), Elements(ContainerList(raw, "initContainers"));
    var labelled := SetLabel(raw);
    if asInit then
      var doc := SetList(labelled, "initContainers", inits + [sidecar]);
      if containers == [] then doc else SetList(doc, "containers", WithPorts(containers))
    else
      SetList(labelled, "containers", WithPorts(containers) + [sidecar])
  }

  lemma PointerOf(rest: seq<string>, first: string, all: seq<string>)
    requires all == [first] + rest
    ensures Pointer(all) == "/" + first + Pointer(rest)
  {
    assert all[1..] == rest;
  }

  lemma PointerText(a: string, b: string, c: string, d: string, e: string)
    ensures Pointer([a, b]) == "/" + a + "/" + b
    ensures Pointer([a, b, c]) == "/" + a + "/" + b + "/" + c
    ensures Pointer([a, b, c, d]) == "/" + a + "/" + b + "/" + c + "/" + d
    ensures Pointer([a, b, c, d, e]) == "/" + a + "/" + b + "/" + c + "/" + d + "/" + e
  {
    PointerOf([], e, [e]);
    PointerOf([], d, [d]);
    PointerOf([], c, [c]);
    PointerOf([], b, [b]);
    PointerOf([e], d, [d, e]);
    PointerOf([d, e], c, [c, d, e]);
    PointerOf([d], c, [c, d]);
    PointerOf([c], b, [b, c]);
    PointerOf([c, d], b, [b, c, d]);
    PointerOf([c, d, e], b, [b, c, d, e]);
    PointerOf([b], a, [a, b]);
    PointerOf([b, c], a, [a, b, c]);
    PointerOf([b, c, d], a, [a, b, c, d]);
    PointerOf([b, c, d, e], a, [a, b, c, d, e]);
  }

  lemma PathTexts()
    ensures CONTAINERS_PATH == "/" + "spec" + "/" + "containers"
    ensures INIT_CONTAINERS_PATH == "/" + "spec" + "/" + "initContainers"
    ensures LABEL_OP.path == "/" + "metadata" + "/" + "labels" + "/" + RUNTIME_LABEL
    ensures "/env" == "/" + "env" && "/-" == "/" + "-"
  {
  }

  lemma PlainTexts()
    ensures Plain("spec") && Plain("containers") && Plain("initContainers") && Plain("env") && Plain("-")
    ensures Plain("metadata") && Plain("labels") && Plain(RUNTIME_LABEL)
  {
  }

  lemma EnvPathText(a: string, b: string, c: string, d: string, e: string)
    ensures Pointer([a, b, c]) == ("/" + a + "/" + b) + ("/" + c)
    ensures Pointer([a, b, c, d]) == ("/" + a + "/" + b) + "/" + c + ("/" + d)
    ensures Pointer([a, b, c, d, e]) == ("/" + a + "/" + b) + "/" + c + ("/" + d) + ("/" + e)
  {
    PointerText(a, b, c, d, e);
  }

  lemma EnvPathTokens(i: nat)
    ensures ParsePointer(EnvPath(i)) == Some(["spec", "containers", Itoa(i), "env"])
    ensures ParsePointer(EnvPath(i) + "/-") == Some(["spec", "containers", Itoa(i), "env", "-"])
  {
    hide ParsePointer, Pointer, Itoa, Plain;
    DigitsArePlain(Itoa(i));
    PathTexts();
    PlainTexts();
    EnvPathText("spec", "containers", Itoa(i), "env", "-");
    PointerRoundTrip(["spec", "containers", Itoa(i), "env"]);
    PointerRoundTrip(["spec", "containers", Itoa(i), "env", "-"]);
  }

  function ListKey(asInit: bool): string {
    if asInit then "initContainers" else "containers"
  }

  lemma ListPathTokens(asInit: bool)
    ensures
      var path, key := if asInit then INIT_CONTAINERS_PATH else CONTAINERS_PATH, ListKey(asInit);
      ParsePointer(path) == Some(["spec", key]) && ParsePointer(path + "/-") == Some(["spec", key, "-"])
    ensures ParsePointer(LABEL_OP.path) == Some(["metadata", "labels", RUNTIME_LABEL])
  {
    hide ParsePointer, Pointer, Plain;
    PathTexts();
    PlainTexts();
    PointerText("spec", ListKey(asInit), "-", "", "");
    EnvPathText("spec", ListKey(asInit), "-", "", "");
    PointerText("metadata", "labels", RUNTIME_LABEL, "", "");
    PointerRoundTrip(["spec", ListKey(asInit)]);
    PointerRoundTrip(["spec", ListKey(asInit), "-"]);
    PointerRoundTrip(["metadata", "labels", RUNTIME_LABEL]);
  }

  // ---------------------------------------------------------------------------------------------
  // One operation at a time

  lemma AddInObject(doc: Json, key: string, rest: seq<string>, value: Json)
    requires doc.Obj? && rest != []
    ensures Add(doc, [key] + rest, value) ==
            if key !in doc.members then Err(NoTarget)
            else
              var r := Add(doc.members[key], rest, value);
              if r.Ok? then Ok(Obj(doc.members[key := r.value])) else r
  {
    assert ([key] + rest)[1..] == rest;
  }

  lemma AddInArray(doc: Json, i: nat, rest: seq<string>, value: Json)
    requires doc.Arr? && i < |doc.elems| && rest != []
    ensures Add(doc, [Itoa(i)] + rest, value) ==
            var r := Add(doc.elems[i], rest, value);
            if r.Ok? then Ok(Arr(doc.elems[i := r.value])) else r
  {
    IndexRoundTrip(i);
    assert ([Itoa(i)] + rest)[1..] == rest;
  }

  lemma ApplyOne(doc: Json, op: PatchOperation)
    ensures Apply(doc, [op]) == ApplyOp(doc, op)
  {
    assert [op][1..] == [];
  }

  /** The sidecar goes behind the containers of its list, or starts the list. */
  lemma SidecarStep(raw: Json, pod: Pod, sidecar: Json, asInit: bool)
    requires DecodePod(raw) == Some(pod)
    ensures
      var key := ListKey(asInit);
      var r := ApplyOp(raw, SidecarOp(pod, sidecar, asInit));
      if Member(raw, "spec").Obj? then r == Ok(SetList(raw, key, Elements(ContainerList(raw, key)) + [sidecar])) else r.Err?
  {
    hide ParsePointer, DecodeContainers, DecodeString, StringsOnly;
    var key := ListKey(asInit);
    ListPathTokens(asInit);
    var list := Elements(ContainerList(raw, key));
    var tokens, value := if list == [] then [key] else [key, "-"], if list == [] then Arr([sidecar]) else sidecar;
    assert ["spec"] + tokens == if list == [] then ["spec", key] else ["spec", key, "-"];
    assert ApplyOp(raw, SidecarOp(pod, sidecar, asInit)) == Add(raw, ["spec"] + tokens, value);
    if raw.Obj? {
      AddInObject(raw, "spec", tokens, value);
      if Member(raw, "spec").Obj? && list != [] {
        AddInObject(raw.members["spec"], key, ["-"], value);
        assert [key] + ["-"] == tokens;
      }
      assert list == [] ==> list + [sidecar] == [sidecar];
    }
  }

  lemma LabelStep(doc: Json)
    requires ObjectOrNull(doc) && ObjectOrNull(Member(doc, "metadata"))
    requires ObjectOrNull(Member(Member(doc, "metadata"), "labels"))
    ensures
      var r := ApplyOp(doc, LABEL_OP);
      if Member(Member(doc, "metadata"), "labels").Obj? then r == Ok(SetLabel(doc)) else r.Err?
  {
    hide ParsePointer;
    ListPathTokens(false);
    var rest, value := ["labels", RUNTIME_LABEL], Str("rusi");
    assert ["metadata", "labels", RUNTIME_LABEL] == ["metadata"] + rest && ["labels"] + [RUNTIME_LABEL] == rest;
    if doc.Obj? {
      AddInObject(doc, "metadata", rest, value);
      if Member(doc, "metadata").Obj? {
        AddInObject(doc.members["metadata"], "labels", [RUNTIME_LABEL], value);
      }
    }
  }

  /** The document's list of containers is elems. */
  predicate HasContainers(doc: Json, elems: seq<Json>) {
    Member(doc, "spec").Obj? && ContainerList(doc, "containers") == Arr(elems)
  }

  lemma AddAtContainer(doc: Json, elems: seq<Json>, i: nat, rest: seq<string>, value: Json)
    requires HasContainers(doc, elems) && i < |elems| && rest != []
    ensures
      var r := Add(elems[i], rest, value);
      Add(doc, ["spec", "containers", Itoa(i)] + rest, value) ==
      if r.Ok? then Ok(SetList(doc, "containers", elems[i := r.value])) else r
  {
    hide Itoa;
    var at := [Itoa(i)] + rest;
    AddInArray(Arr(elems), i, rest, value);
    AddInObject(doc.members["spec"], "containers", at, value);
    AddInObject(doc, "spec", ["containers"] + at, value);
    assert ["spec", "containers", Itoa(i)] + rest == ["spec"] + (["containers"] + at);
  }

  lemma SetListSame(doc: Json, elems: seq<Json>)
    requires HasContainers(doc, elems)
    ensures SetList(doc, "containers", elems) == doc
  {
    assert doc.members["spec"].members["containers" := Arr(elems)] == doc.members["spec"].members;
    assert doc.members["spec" := doc.members["spec"]] == doc.members;
  }

  lemma PortStep(doc: Json, elems: seq<Json>, i: nat, c: Container)
    requires HasContainers(doc, elems) && i < |elems| && DecodeContainer(elems[i]) == Some(c)
    ensures
      var r := Apply(doc, PortOps(i, c));
      if elems[i].Obj? then r == Ok(SetList(doc, "containers", elems[i := WithPort(elems[i])])) else r.Err?
  {
    hide ParsePointer, Itoa, SetList, EnvPath;
    EnvPathTokens(i);
    var elem, env := elems[i], Elements(Member(elems[i], "env"));
    assert |c.env| == |env|;
    if c.env == [] {
      var value := Arr([PORT_ENV]);
      AddAtContainer(doc, elems, i, ["env"], value);
      assert ["spec", "containers", Itoa(i), "env"] == ["spec", "containers", Itoa(i)] + ["env"];
      ApplyOne(doc, PatchOperation("add", EnvPath(i), value));
      assert env + [PORT_ENV] == [PORT_ENV];
    } else if PORT_NAME in c.env {
      assert elems[i := elem] == elems;
      SetListSame(doc, elems);
    } else {
      AddAtContainer(doc, elems, i, ["env", "-"], PORT_ENV);
      assert ["spec", "containers", Itoa(i), "env", "-"] == ["spec", "containers", Itoa(i)] + ["env", "-"];
      ApplyOne(doc, PatchOperation("add", EnvPath(i) + "/-", PORT_ENV));
      AddInObject(elem, "env", ["-"], PORT_ENV);
      assert ["env"] + ["-"] == ["env", "-"];
    }
  }

  lemma SetListTwice(doc: Json, a: seq<Json>, b: seq<Json>)
    requires Member(doc, "spec").Obj?
    ensures HasContainers(SetList(doc, "containers", a), a)
    ensures SetList(SetList(doc, "containers", a), "containers", b) == SetList(doc, "containers", b)
  {
    var spec := doc.members["spec"].members;
    assert spec["containers" := Arr(a)]["containers" := Arr(b)] == spec["containers" := Arr(b)];
    var x, y := Obj(spec["containers" := Arr(a)]), Obj(spec["containers" := Arr(b)]);
    assert doc.members["spec" := x]["spec" := y] == doc.members["spec" := y];
  }

  predicate AllObjects(elems: seq<Json>) {
    forall i :: 0 <= i < |elems| ==> elems[i].Obj?
  }

  /** The container list while the operations of its first n containers have been applied. */
  function PortsUpTo(elems: seq<Json>, n: nat): (r: seq<Json>)
    requires n <= |elems| && AllObjects(elems[..n]) && DecodeContainers(elems[..n]).Some?
    ensures |r| == |elems|
  {
    WithPorts(elems[..n]) + elems[n..]
  }

  lemma EnvOpsLast(front: seq<Container>, c: Container)
    ensures EnvOps(front + [c]) == EnvOps(front) + PortOps(|front|, c)
  {
    assert (front + [c])[..|front|] == front;
  }

  lemma DecodeFront(elems: seq<Json>, n: nat)
    requires 0 < n <= |elems| && DecodeContainers(elems[..n]).Some?
    ensures DecodeContainers(elems[..n - 1]).Some? && DecodeContainer(elems[n - 1]).Some?
    ensures DecodeContainers(elems[..n]).value ==
            DecodeContainers(elems[..n - 1]).value + [DecodeContainer(elems[n - 1]).value]
    ensures |DecodeContainers(elems[..n - 1]).value| == n - 1
    ensures AllObjects(elems[..n]) <==> AllObjects(elems[..n - 1]) && elems[n - 1].Obj?
  {
    var front := elems[..n];
    assert front[..n - 1] == elems[..n - 1];
    assert forall i :: 0 <= i < n ==> elems[..n][i] == elems[i];
    assert forall i :: 0 <= i < n - 1 ==> elems[..n - 1][i] == elems[i];
  }

  lemma PortsStepNone(doc: Json, elems: seq<Json>)
    requires HasContainers(doc, elems) && DecodeContainers(elems[..0]).Some?
    ensures AllObjects(elems[..0])
    ensures Apply(doc, EnvOps(DecodeContainers(elems[..0]).value)) == Ok(SetList(doc, "containers", PortsUpTo(elems, 0)))
  {
    assert PortsUpTo(elems, 0) == elems;
    SetListSame(doc, elems);
  }

  lemma PortsStepLast(doc: Json, elems: seq<Json>, n: nat, c: Container)
    requires 0 < n <= |elems| && HasContainers(doc, elems)
    requires DecodeContainers(elems[..n - 1]).Some? && AllObjects(elems[..n - 1]) && DecodeContainer(elems[n - 1]) == Some(c)
    ensures
      var r := Apply(SetList(doc, "containers", PortsUpTo(elems, n - 1)), PortOps(n - 1, c));
      if elems[n - 1].Obj? then
        DecodeContainers(elems[..n]).Some? && AllObjects(elems[..n]) &&
        r == Ok(SetList(doc, "containers", PortsUpTo(elems, n)))
      else r.Err?
  {
    hide PortOps, SetList, DecodeContainer, WithPort;
    var before := PortsUpTo(elems, n - 1);
    assert before[n - 1] == elems[n - 1];
    SetListTwice(doc, before, before);
    PortStep(SetList(doc, "containers", before), before, n - 1, c);
    if elems[n - 1].Obj? {
      var after := before[n - 1 := WithPort(elems[n - 1])];
      SetListTwice(doc, before, after);
      assert PortsUpTo(elems, n) == after;
    }
  }

  lemma {:induction false} PortsStep(doc: Json, elems: seq<Json>, n: nat)
    requires HasContainers(doc, elems) && n <= |elems| && DecodeContainers(elems[..n]).Some?
    ensures
      var r := Apply(doc, EnvOps(DecodeContainers(elems[..n]).value));
      if AllObjects(elems[..n]) then r == Ok(SetList(doc, "containers", PortsUpTo(elems, n))) else r.Err?
  {
    hide *;
    if n == 0 {
      PortsStepNone(doc, elems);
    } else {
      DecodeFront(elems, n);
      var front := DecodeContainers(elems[..n - 1]).value;
      var c := DecodeContainer(elems[n - 1]).value;
      PortsStep(doc, elems, n - 1);
      EnvOpsLast(front, c);
      ApplyConcat(doc, EnvOps(front), PortOps(n - 1, c));
      if AllObjects(elems[..n - 1]) {
        PortsStepLast(doc, elems, n, c);
      }
    }
  }

  lemma LabelAside(doc: Json, key: string, elems: seq<Json>)
    requires Member(doc, "spec").Obj?
    ensures Member(SetList(doc, key, elems), "metadata") == Member(doc, "metadata")
    ensures Member(Member(doc, "metadata"), "labels").Obj? ==>
              SetLabel(SetList(doc, key, elems)) == SetList(SetLabel(doc), key, elems)
  {
    if Member(Member(doc, "metadata"), "labels").Obj? {
      var x := SetList(doc, key, elems).members["spec"];
      var y := SetLabel(doc).members["metadata"];
      assert doc.members["spec" := x]["metadata" := y] == doc.members["metadata" := y]["spec" := x];
    }
  }

  lemma PatchSplits(raw: Json, first: PatchOperation, env: seq<PatchOperation>)
    ensures
      var r := Apply(raw, [first, LABEL_OP] + env);
      var r1 := ApplyOp(raw, first);
      if r1.Err? then r.Err?
      else
        var r2 := ApplyOp(r1.value, LABEL_OP);
        if r2.Err? then r.Err? else r == Apply(r2.value, env)
  {
    var all := [first, LABEL_OP] + env;
    assert all[1..] == [LABEL_OP] + env && all[1..][1..] == env;
  }

  lemma AfterLabel(raw: Json, pod: Pod, sidecar: Json, asInit: bool)
    requires DecodePod(raw) == Some(pod) && Member(raw, "spec").Obj?
    requires Member(Member(raw, "metadata"), "labels").Obj?
    ensures
      var key := ListKey(asInit);
      var doc := SetList(SetLabel(raw), key, Elements(ContainerList(raw, key)) + [sidecar]);
      var r := Apply(doc, EnvOps(pod.containers));
      if Patchable(raw) then r == Ok(Injected(raw, sidecar, asInit)) else r.Err?
  {
    hide DecodeContainers, DecodeString, WithPort;
    var containers := Elements(ContainerList(raw, "containers"));
    var n := |containers|;
    var key := ListKey(asInit);
    var list := Elements(ContainerList(raw, key)) + [sidecar];
    var doc := SetList(SetLabel(raw), key, list);
    assert DecodeContainers(containers) == Some(pod.containers);
    assert Patchable(raw) <==> AllObjects(containers);
    if asInit && n == 0 {
      assert pod.containers == [];
      assert containers == [];
    } else {
      var elems := if asInit then containers else list;
      assert elems[..n] == containers;
      assert HasContainers(doc, elems);
      PortsStep(doc, elems, n);
      if Patchable(raw) {
        if asInit {
          assert PortsUpTo(elems, n) == WithPorts(containers);
        } else {
          assert elems[n..] == [sidecar];
          SetListTwice(SetLabel(raw), list, PortsUpTo(elems, n));
        }
      }
    }
  }

  lemma AfterSidecar(raw: Json, pod: Pod, sidecar: Json, asInit: bool)
    requires DecodePod(raw) == Some(pod) && Member(raw, "spec").Obj?
    ensures
      var key := ListKey(asInit);
      var doc := SetList(raw, key, Elements(ContainerList(raw, key)) + [sidecar]);
      var r := ApplyOp(doc, LABEL_OP);
      if !Member(Member(raw, "metadata"), "labels").Obj? then r.Err?
      else
        r.Ok? &&
        var r2 := Apply(r.value, EnvOps(pod.containers));
        if Patchable(raw) then r2 == Ok(Injected(raw, sidecar, asInit)) else r2.Err?
  {
    hide DecodeContainers, DecodeString, SetLabel, Apply, EnvOps;
    var key := ListKey(asInit);
    var list := Elements(ContainerList(raw, key)) + [sidecar];
    var doc := SetList(raw, key, list);
    LabelAside(raw, key, list);
    LabelStep(doc);
    if Member(Member(raw, "metadata"), "labels").Obj? {
      AfterLabel(raw, pod, sidecar, asInit);
    }
  }

  /**
   * What the patch means. On a decodable, enabled pod without a sidecar and with an app id, the
   * emitted operations apply exactly when the pod has a spec, a labels object and no null container,
   * and then they produce the injected pod.
   */
  lemma PatchMeaning(raw: Json, details: map<string, Json>, asInit: bool)
    requires DecodePod(raw).Some?
    requires
      var pod := DecodePod(raw).value;
      Enabled(pod.annotations) && !HasSidecar(pod) && AppId(pod) != ""
    ensures PatchFor(raw, details, asInit).Ok?
    ensures
      var r := Apply(raw, PatchFor(raw, details, asInit).value);
      if Patchable(raw) then r == Ok(Injected(raw, Sidecar(details), asInit)) else r.Err?
  {
    var pod, sidecar := DecodePod(raw).value, Sidecar(details);
    var first, env := SidecarOp(pod, sidecar, asInit), EnvOps(pod.containers);
    PatchSplits(raw, first, env);
    SidecarStep(raw, pod, sidecar, asInit);
    if Member(raw, "spec").Obj? {
      AfterSidecar(raw, pod, sidecar, asInit);
    }
  }

  const ANNOTATIONS := Obj(map[ENABLED_KEY := Str("1")])

  /** An enabled pod without labels. */
  const UNLABELLED := Obj(map["metadata" := Obj(map["name" := Str("a"), "annotations" := ANNOTATIONS]),
                              "spec" := Obj(map["containers" := Arr([])])])

  lemma DifferentKeys()
    ensures "name" != "annotations" && "metadata" != "spec" && "containers" != "initContainers"
    ensures "labels" != "name" && "labels" != "annotations" && ENABLED_KEY != APP_ID_KEY
  {
    assert |"name"| == 4 && |"annotations"| == 11 && |"metadata"| == 8 && |"labels"| == 6;
    assert |ENABLED_KEY| == 15 && |APP_ID_KEY| == 14;
  }

  lemma UnlabelledMembers()
    ensures Member(UNLABELLED, "metadata").Obj? && Member(UNLABELLED, "spec").Obj?
    ensures Member(Member(UNLABELLED, "metadata"), "name") == Str("a")
    ensures Member(Member(UNLABELLED, "metadata"), "annotations") == ANNOTATIONS
    ensures Member(Member(UNLABELLED, "metadata"), "labels") == Null
    ensures ContainerList(UNLABELLED, "containers") == Arr([]) && ContainerList(UNLABELLED, "initContainers") == Null
  {
    DifferentKeys();
  }

  lemma UnlabelledStrings()
    ensures StringsOnly(Null) && StringsOnly(ANNOTATIONS)
    ensures Strings(ANNOTATIONS) == map[ENABLED_KEY := "1"]
    ensures Enabled(map[ENABLED_KEY := "1"]) && APP_ID_KEY !in map[ENABLED_KEY := "1"]
  {
    DifferentKeys();
    assert ToLower("1") == "1";
  }

  /** Such a pod gets a patch, and the patch fails. */
  lemma UnlabelledPodFails(details: map<string, Json>, asInit: bool)
    ensures
      var ops := PatchFor(UNLABELLED, details, asInit);
      ops.Ok? && ops.value != [] && Apply(UNLABELLED, ops.value).Err?
  {
    hide Member, ContainerList, StringsOnly, Strings, Enabled, Apply, EnvOps, SidecarOp;
    UnlabelledMembers();
    UnlabelledStrings();
    assert DecodePod(UNLABELLED) == Some(Pod("a", map[ENABLED_KEY := "1"], [], []));
    PatchMeaning(UNLABELLED, details, asInit);
  }

  // ---------------------------------------------------------------------------------------------
  // What the injected pod keeps, and why it is not patched again

  lemma DecodePort(env: seq<Json>)
    requires DecodeEnv(env).Some?
    ensures DecodeEnv(env + [PORT_ENV]) == Some(DecodeEnv(env).value + [PORT_NAME])
  {
    assert (env + [PORT_ENV])[..|env|] == env;
  }

  /** A container with one member replaced, as the decoder sees it. */
  lemma DecodeNewEnv(c: Json, env: seq<Json>)
    requires c.Obj? && DecodeContainer(c).Some? && DecodeEnv(env).Some?
    ensures DecodeContainer(Obj(c.members["env" := Arr(env)])) ==
            Some(Container(DecodeContainer(c).value.name, DecodeEnv(env).value))
  {
    hide DecodeEnv, DecodeString;
  }

  lemma DecodedEnv(c: Json)
    requires DecodeContainer(c).Some?
    ensures DecodeEnv(Elements(Member(c, "env"))) == Some(DecodeContainer(c).value.env)
  {
    hide DecodeEnv, DecodeString;
  }

  /** The container keeps its name, its variables in their order and every other member. */
  lemma PortKeepsUserValues(c: Json)
    requires c.Obj? && DecodeContainer(c).Some?
    ensures
      var d, before := WithPort(c), DecodeContainer(c).value;
      && (forall k :: k != "env" ==> Member(d, k) == Member(c, k))
      && Elements(Member(c, "env")) <= Elements(Member(d, "env"))
      && DecodeContainer(d) ==
         Some(Container(before.name, before.env + (if PORT_NAME in before.env then [] else [PORT_NAME])))
      && PORT_NAME in DecodeContainer(d).value.env
  {
    hide DecodeContainer, DecodeEnv, DecodeString;
    var env, names := Elements(Member(c, "env")), DecodeContainer(c).value.env;
    DecodedEnv(c);
    if PORT_NAME in names {
      assert names + [] == names;
    } else {
      DecodePort(env);
      DecodeNewEnv(c, env + [PORT_ENV]);
    }
  }

  lemma DecodeJoined(a: seq<Json>, b: seq<Json>)
    requires DecodeContainers(a).Some? && DecodeContainers(b).Some?
    ensures DecodeContainers(a + b).Some?
  {
    forall i | 0 <= i < |a + b| ensures DecodeContainer((a + b)[i]).Some? {
      if i < |a| {
        assert DecodeContainer(a[i]).Some?;
      } else {
        assert DecodeContainer(b[i - |a|]).Some?;
      }
    }
  }

  lemma WithPortsDecode(elems: seq<Json>)
    requires AllObjects(elems) && DecodeContainers(elems).Some?
    ensures DecodeContainers(WithPorts(elems)).Some?
  {
    var r := WithPorts(elems);
    forall i | 0 <= i < |r| ensures DecodeContainer(r[i]).Some? {
      PortKeepsUserValues(elems[i]);
    }
  }

  lemma InjectedLists(raw: Json, sidecar: Json, asInit: bool)
    requires DecodePod(raw).Some? && Patchable(raw)
    ensures
      var containers, inits := Elements(ContainerList(raw, "containers")), Elements(ContainerList(raw, "initContainers"));
      var doc := Injected(raw, sidecar, asInit);
      && doc.Obj? && Member(doc, "spec").Obj?
      && Member(doc, "metadata") == Member(SetLabel(raw), "metadata")
      && Elements(ContainerList(doc, "containers")) == WithPorts(containers) + (if asInit then [] else [sidecar])
      && Elements(ContainerList(doc, "initContainers")) == inits + (if asInit then [sidecar] else [])
      && (ContainerList(doc, "containers").Arr? || ContainerList(doc, "containers").Null?)
      && (ContainerList(doc, "initContainers").Arr? || ContainerList(doc, "initContainers").Null?)
  {
    hide DecodeContainers, DecodeString, WithPort;
    assert AllObjects(Elements(ContainerList(raw, "containers")));
    assert WithPorts(Elements(ContainerList(raw, "containers"))) + []
        == WithPorts(Elements(ContainerList(raw, "containers")));
    assert Elements(ContainerList(raw, "initContainers")) + [] == Elements(ContainerList(raw, "initContainers"));
  }

  lemma LabelledMetadata(raw: Json)
    requires DecodePod(raw).Some? && Patchable(raw)
    ensures
      var meta, after := Member(raw, "metadata"), Member(SetLabel(raw), "metadata");
      && after.Obj? && Member(after, "name") == Member(meta, "name")
      && Member(after, "annotations") == Member(meta, "annotations")
      && StringsOnly(Member(after, "labels"))
  {
    hide DecodeContainers;
  }

  lemma SidecarDecodes(details: map<string, Json>)
    requires DecodeContainer(Sidecar(details)).Some?
    ensures DecodeContainer(Sidecar(details)).value.name == SIDECAR_NAME
  {
  }

  /** A pod whose lists and metadata decode, decodes. */
  lemma PodDecodes(doc: Json)
    requires ObjectOrNull(doc) && ObjectOrNull(Member(doc, "metadata")) && ObjectOrNull(Member(doc, "spec"))
    requires DecodeString(Member(Member(doc, "metadata"), "name")).Some?
    requires StringsOnly(Member(Member(doc, "metadata"), "annotations"))
    requires StringsOnly(Member(Member(doc, "metadata"), "labels"))
    requires ContainerList(doc, "containers").Arr? || ContainerList(doc, "containers").Null?
    requires ContainerList(doc, "initContainers").Arr? || ContainerList(doc, "initContainers").Null?
    requires DecodeContainers(Elements(ContainerList(doc, "containers"))).Some?
    requires DecodeContainers(Elements(ContainerList(doc, "initContainers"))).Some?
    ensures DecodePod(doc).Some?
    ensures DecodeContainers(Elements(ContainerList(doc, "containers"))) == Some(DecodePod(doc).value.containers)
    ensures DecodeContainers(Elements(ContainerList(doc, "initContainers"))) == Some(DecodePod(doc).value.initContainers)
  {
    hide DecodeContainers, StringsOnly, DecodeString, ContainerList, Member;
  }

  lemma DecodedParts(raw: Json)
    requires DecodePod(raw).Some?
    ensures DecodeContainers(Elements(ContainerList(raw, "containers"))).Some?
    ensures DecodeContainers(Elements(ContainerList(raw, "initContainers"))).Some?
    ensures DecodeString(Member(Member(raw, "metadata"), "name")).Some?
    ensures StringsOnly(Member(Member(raw, "metadata"), "annotations"))
  {
    hide DecodeContainers, StringsOnly, DecodeString, ContainerList, Member;
  }

  lemma DecodeFew(sidecar: Json)
    requires DecodeContainer(sidecar).Some?
    ensures DecodeContainers([sidecar]).Some? && DecodeContainers([]).Some?
  {
  }

  lemma InjectedDecodes(raw: Json, sidecar: Json, asInit: bool)
    requires DecodePod(raw).Some? && Patchable(raw) && DecodeContainer(sidecar).Some?
    ensures
      var doc := Injected(raw, sidecar, asInit);
      && DecodePod(doc).Some?
      && DecodeContainers(Elements(ContainerList(doc, "containers"))) == Some(DecodePod(doc).value.containers)
      && DecodeContainers(Elements(ContainerList(doc, "initContainers"))) == Some(DecodePod(doc).value.initContainers)
  {
    hide DecodePod, DecodeContainers, DecodeContainer, WithPort, WithPorts, StringsOnly, Injected, DecodeString,
      ContainerList, Member, SetLabel;
    var containers, inits := Elements(ContainerList(raw, "containers")), Elements(ContainerList(raw, "initContainers"));
    InjectedLists(raw, sidecar, asInit);
    LabelledMetadata(raw);
    DecodedParts(raw);
    assert AllObjects(containers);
    WithPortsDecode(containers);
    DecodeFew(sidecar);
    DecodeJoined(WithPorts(containers), if asInit then [] else [sidecar]);
    DecodeJoined(inits, if asInit then [sidecar] else []);
    PodDecodes(Injected(raw, sidecar, asInit));
  }

  /** The generator finds its own sidecar: a patched pod is not patched again. */
  lemma PatchedOnlyOnce(raw: Json, details: map<string, Json>, asInit: bool, asInitNext: bool, next: map<string, Json>)
    requires DecodePod(raw).Some? && Patchable(raw)
    requires DecodeContainer(Sidecar(details)).Some?
    ensures PatchFor(Injected(raw, Sidecar(details), asInit), next, asInitNext) == Ok([])
  {
    hide DecodeContainers, DecodeContainer, WithPort, WithPorts, StringsOnly, Injected, DecodePod, ContainerList,
      Member, SetLabel, Sidecar;
    var sidecar := Sidecar(details);
    var doc := Injected(raw, sidecar, asInit);
    var containers, inits := Elements(ContainerList(raw, "containers")), Elements(ContainerList(raw, "initContainers"));
    InjectedLists(raw, sidecar, asInit);
    LabelledMetadata(raw);
    SidecarDecodes(details);
    InjectedDecodes(raw, sidecar, asInit);
    var pod := DecodePod(doc).value;
    if asInit {
      assert pod.initContainers[|inits|] == DecodeContainer(sidecar).value;
    } else {
      assert pod.containers[|containers|] == DecodeContainer(sidecar).value;
    }
  }
}
