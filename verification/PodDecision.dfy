/**
 * Which pods the injector patches, read off the raw admission object alone: who asks for a sidecar, who
 * has one, who has an app id, and which container brings its own port variable.
 */
module PodDecision {
  import opened Wrappers
  import opened JsonPatch
  import opened PodPatch

  // ---------------------------------------------------------------------------------------------
  // Reading the raw object

  /** A text in any letter case: small letters stand for both cases. */
  predicate InAnyCase(text: string, small: string) {
    |text| == |small| &&
    forall i :: 0 <= i < |text| ==>
      if 'A' <= text[i] <= 'Z' then small[i] as int == text[i] as int + 32 else small[i] == text[i]
  }

  /** ToLower changes capital letters to small ones and nothing else. */
  lemma {:induction false} ToLowerIff(text: string, small: string)
    ensures ToLower(text) == small <==> InAnyCase(text, small)
  {
    if text != "" && |small| == |text| {
      ToLowerIff(text[1..], small[1..]);
      var first := if 'A' <= text[0] <= 'Z' then (text[0] as int + 32) as char else text[0];
      assert ToLower(text) == [first] + ToLower(text[1..]);
      assert small == [small[0]] + small[1..];
      if InAnyCase(text, small) {
        assert InAnyCase(text[1..], small[1..]);
      }
      if ToLower(text) == small {
        assert ToLower(text)[1..] == small[1..];
        forall i | 0 <= i < |text|
          ensures if 'A' <= text[i] <= 'Z' then small[i] as int == text[i] as int + 32 else small[i] == text[i]
        {
          if i > 0 {
            assert text[1..][i - 1] == text[i] && small[1..][i - 1] == small[i];
          }
        }
      }
    }
  }

  function Annotation(raw: Json, key: string): Json {
    Member(Member(Member(raw, "metadata"), "annotations"), key)
  }

  /** The annotation is a text that means yes. */
  predicate Asks(raw: Json) {
    var a := Annotation(raw, "rusi.io/enabled");
    a.Str? && (InAnyCase(a.s, "y") || InAnyCase(a.s, "yes") || InAnyCase(a.s, "true") || InAnyCase(a.s, "on")
               || InAnyCase(a.s, "1"))
  }

  predicate Named(j: Json, name: string) {
    Member(j, "name") == Str(name)
  }

  /** Some container or init container is called rusid. */
  predicate Equipped(raw: Json) {
    (exists c :: c in Elements(ContainerList(raw, "containers")) && Named(c, "rusid")) ||
    (exists c :: c in Elements(ContainerList(raw, "initContainers")) && Named(c, "rusid"))
  }

  predicate NonEmptyText(j: Json) {
    j.Str? && j.s != ""
  }

  /** The app id comes from the annotation or else from the pod's name. */
  predicate HasAppId(raw: Json) {
    NonEmptyText(Annotation(raw, "rusi.io/app-id")) || NonEmptyText(Member(Member(raw, "metadata"), "name"))
  }

  // ---------------------------------------------------------------------------------------------
  // What the generator reads is that

  lemma EmptyIsNoYes()
    ensures !InAnyCase("", "y") && !InAnyCase("", "yes") && !InAnyCase("", "true") && !InAnyCase("", "on")
    ensures !InAnyCase("", "1")
  {
  }

  lemma DecodedNotes(raw: Json)
    requires DecodePod(raw).Some?
    ensures
      var meta := Member(raw, "metadata");
      && StringsOnly(Member(meta, "annotations"))
      && DecodePod(raw).value.annotations == Strings(Member(meta, "annotations"))
      && DecodeString(Member(meta, "name")) == Some(DecodePod(raw).value.name)
  {
    hide DecodeContainers, StringsOnly, Strings, DecodeString, ContainerList, Member;
  }

  lemma EnabledIff(raw: Json)
    requires DecodePod(raw).Some?
    ensures Enabled(DecodePod(raw).value.annotations) <==> Asks(raw)
  {
    var notes := Member(Member(raw, "metadata"), "annotations");
    DecodedNotes(raw);
    hide DecodePod, ToLower, InAnyCase;
    var key := "rusi.io/enabled";
    if notes.Obj? && key in notes.members {
      var value := Strings(notes)[key];
      ToLowerIff(value, "y");
      ToLowerIff(value, "yes");
      ToLowerIff(value, "true");
      ToLowerIff(value, "on");
      ToLowerIff(value, "1");
      if notes.members[key].Null? {
        EmptyIsNoYes();
      }
    }
  }

  lemma AppIdIff(raw: Json)
    requires DecodePod(raw).Some?
    ensures AppId(DecodePod(raw).value) != "" <==> HasAppId(raw)
  {
    DecodedNotes(raw);
    hide DecodePod;
  }

  lemma NameIsRaw(j: Json)
    requires DecodeContainer(j).Some?
    ensures DecodeContainer(j).value.name == "rusid" <==> Named(j, "rusid")
  {
    hide DecodeEnv;
    assert |"rusid"| == 5;
  }

  lemma NamesAreRaw(elems: seq<Json>, cs: seq<Container>)
    requires DecodeContainers(elems) == Some(cs)
    ensures (exists c :: c in cs && c.name == "rusid") <==> (exists c :: c in elems && Named(c, "rusid"))
  {
    forall i | 0 <= i < |elems| ensures cs[i].name == "rusid" <==> Named(elems[i], "rusid") {
      assert cs[i] == DecodeContainer(elems[i]).value;
      NameIsRaw(elems[i]);
    }
    if c :| c in elems && Named(c, "rusid") {
      var i :| 0 <= i < |elems| && elems[i] == c;
      assert cs[i] in cs;
    }
    if c :| c in cs && c.name == "rusid" {
      var i :| 0 <= i < |cs| && cs[i] == c;
      assert elems[i] in elems;
    }
  }

  lemma DecodedLists(raw: Json)
    requires DecodePod(raw).Some?
    ensures DecodeContainers(Elements(ContainerList(raw, "containers"))) == Some(DecodePod(raw).value.containers)
    ensures DecodeContainers(Elements(ContainerList(raw, "initContainers"))) == Some(DecodePod(raw).value.initContainers)
  {
    hide DecodeContainers, StringsOnly, Strings, DecodeString, ContainerList, Member;
  }

  lemma EquippedIff(raw: Json)
    requires DecodePod(raw).Some?
    ensures HasSidecar(DecodePod(raw).value) <==> Equipped(raw)
  {
    DecodedLists(raw);
    hide DecodePod, DecodeContainers;
    NamesAreRaw(Elements(ContainerList(raw, "containers")), DecodePod(raw).value.containers);
    NamesAreRaw(Elements(ContainerList(raw, "initContainers")), DecodePod(raw).value.initContainers);
  }

  // ---------------------------------------------------------------------------------------------
  // The decision

  /**
   * What the generator answers, for every raw object: an error for an undecodable pod; nothing for a
   * pod that does not ask or has its sidecar; an error for a pod that asks and has no app id; and for
   * every other pod a patch that is not empty.
   */
  lemma PatchDecision(raw: Json, details: map<string, Json>, asInit: bool)
    ensures
      var r := PatchFor(raw, details, asInit);
      if DecodePod(raw).None? then r == Err(MalformedPod)
      else if !Asks(raw) || Equipped(raw) then r == Ok([])
      else if !HasAppId(raw) then r == Err(EmptyAppId)
      else r.Ok? && |r.value| >= 2
  {
    if DecodePod(raw).Some? {
      EnabledIff(raw);
      EquippedIff(raw);
      AppIdIff(raw);
    }
    hide DecodePod, Enabled, HasSidecar, AppId, Asks, Equipped, HasAppId, EnvOps, SidecarOp;
  }

  /** A pod that never mentions the injector is left alone. */
  lemma UnaskedPodsAreLeftAlone(raw: Json, details: map<string, Json>, asInit: bool)
    requires DecodePod(raw).Some? && Annotation(raw, "rusi.io/enabled") == Null
    ensures PatchFor(raw, details, asInit) == Ok([])
  {
    PatchDecision(raw, details, asInit);
  }

  // ---------------------------------------------------------------------------------------------
  // The port variable

  /** The container defines the variable itself. */
  predicate BringsPort(c: Json) {
    exists e :: e in Elements(Member(c, "env")) && Named(e, "RUSI_GRPC_PORT")
  }

  lemma {:induction false} EnvNamesAreRaw(elems: seq<Json>)
    requires DecodeEnv(elems).Some?
    ensures "RUSI_GRPC_PORT" in DecodeEnv(elems).value <==> exists e :: e in elems && Named(e, "RUSI_GRPC_PORT")
  {
    if elems != [] {
      var init, last := elems[..|elems| - 1], elems[|elems| - 1];
      EnvNamesAreRaw(init);
      assert elems == init + [last];
      var name := DecodeString(Member(last, "name")).value;
      assert DecodeEnv(elems).value == DecodeEnv(init).value + [name];
      assert |"RUSI_GRPC_PORT"| == 14;
      assert name == "RUSI_GRPC_PORT" <==> Named(last, "RUSI_GRPC_PORT");
      if "RUSI_GRPC_PORT" in DecodeEnv(elems).value {
        if name == "RUSI_GRPC_PORT" {
          assert last in elems;
        } else {
          var e :| e in init && Named(e, "RUSI_GRPC_PORT");
          assert e in elems;
        }
      }
      if e :| e in elems && Named(e, "RUSI_GRPC_PORT") {
        assert e == last || e in init;
      }
    }
  }

  /**
   * A container that brings its port variable stays as it is; any other gets the variable behind its
   * own ones, with the port of the sidecar, and keeps every other member.
   */
  lemma PortIff(c: Json)
    requires c.Obj? && DecodeContainer(c).Some?
    ensures BringsPort(c) ==> WithPort(c) == c
    ensures !BringsPort(c) ==>
              && WithPort(c).Obj?
              && Elements(Member(WithPort(c), "env")) == Elements(Member(c, "env")) +
                   [Obj(map["name" := Str("RUSI_GRPC_PORT"), "value" := Str("50003")])]
              && forall k :: k != "env" ==> Member(WithPort(c), k) == Member(c, k)
  {
    DecodedEnv(c);
    EnvNamesAreRaw(Elements(Member(c, "env")));
    hide DecodeContainer, DecodeEnv;
  }

  // ---------------------------------------------------------------------------------------------
  // The injected pod, member by member

  lemma LabelMembers(doc: Json)
    requires Member(Member(doc, "metadata"), "labels").Obj?
    ensures
      var r := SetLabel(doc);
      && r.Obj? && (forall k :: k != "metadata" ==> Member(r, k) == Member(doc, k))
      && (forall k :: k != "labels" ==> Member(Member(r, "metadata"), k) == Member(Member(doc, "metadata"), k))
      && Member(Member(Member(r, "metadata"), "labels"), "app-runtime") == Str("rusi")
      && (forall k :: k != "app-runtime" ==>
            Member(Member(Member(r, "metadata"), "labels"), k) == Member(Member(Member(doc, "metadata"), "labels"), k))
  {
  }

  lemma ListMembers(doc: Json, key: string)
    requires Member(doc, "spec").Obj?
    ensures forall elems ::
              var r := SetList(doc, key, elems);
              && r.Obj? && Member(r, "spec").Obj? && (forall k :: k != "spec" ==> Member(r, k) == Member(doc, k))
              && forall k :: k != key ==> Member(Member(r, "spec"), k) == Member(Member(doc, "spec"), k)
  {
  }

  /** The label and nothing else of the metadata; the lists and nothing else of the spec; nothing else of the pod. */
  lemma InjectedMembers(raw: Json, sidecar: Json, asInit: bool)
    requires DecodePod(raw).Some? && Patchable(raw)
    ensures
      var doc := Injected(raw, sidecar, asInit);
      var meta, spec := Member(raw, "metadata"), Member(raw, "spec");
      && (forall k :: k != "metadata" && k != "spec" ==> Member(doc, k) == Member(raw, k))
      && (forall k :: k != "labels" ==> Member(Member(doc, "metadata"), k) == Member(meta, k))
      && Member(Member(Member(doc, "metadata"), "labels"), "app-runtime") == Str("rusi")
      && (forall k :: k != "app-runtime" ==>
            Member(Member(Member(doc, "metadata"), "labels"), k) == Member(Member(meta, "labels"), k))
      && (forall k :: k != "containers" && k != "initContainers" ==> Member(Member(doc, "spec"), k) == Member(spec, k))
  {
    hide DecodePod, WithPorts, StringsOnly, ContainerList;
    var labelled := SetLabel(raw);
    LabelMembers(raw);
    ListMembers(labelled, "initContainers");
    ListMembers(labelled, "containers");
    var inits, containers := Elements(ContainerList(raw, "initContainers")), Elements(ContainerList(raw, "containers"));
    ListMembers(SetList(labelled, "initContainers", inits + [sidecar]), "containers");
    hide SetLabel, SetList;
  }

  /** The lists: every container in its place, with its port variable, and the sidecar at the end of one of them. */
  lemma InjectedContainers(raw: Json, sidecar: Json, asInit: bool, i: nat)
    requires DecodePod(raw).Some? && Patchable(raw)
    ensures
      var cs, ics := Elements(ContainerList(raw, "containers")), Elements(ContainerList(raw, "initContainers"));
      var doc := Injected(raw, sidecar, asInit);
      var ds, ids := Elements(ContainerList(doc, "containers")), Elements(ContainerList(doc, "initContainers"));
      && ids == (if asInit then ics + [sidecar] else ics)
      && |ds| == |cs| + (if asInit then 0 else 1) && (!asInit ==> ds[|cs|] == sidecar)
      && (i < |cs| ==>
            if BringsPort(cs[i]) then ds[i] == cs[i]
            else Elements(Member(ds[i], "env")) == Elements(Member(cs[i], "env")) +
                   [Obj(map["name" := Str("RUSI_GRPC_PORT"), "value" := Str("50003")])]
                 && forall k :: k != "env" ==> Member(ds[i], k) == Member(cs[i], k))
  {
    hide DecodePod, DecodeContainer, WithPort, Injected, BringsPort, ContainerList, Elements, DecodeContainers;
    InjectedLists(raw, sidecar, asInit);
    DecodedLists(raw);
    var cs := Elements(ContainerList(raw, "containers"));
    if i < |cs| {
      assert cs[i] in cs;
      PortIff(cs[i]);
      assert WithPorts(cs)[i] == WithPort(cs[i]);
    }
  }
}
