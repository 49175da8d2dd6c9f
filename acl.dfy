// The JSON-LD body of one Web Access Control authorization, as written into
// a container's `.acl` resource (src/util/Acl.ts, src/util/Interfaces.ts).
module Acl {
  import opened Results
  import opened Vocabulary

  /** A JSON-LD node reference `{"@id": id}`. */
  datatype Uri = Uri(id: string)

  /**
   * One authorization. `vocab` is the `@vocab` of its `@context`; `agent` and
   * `agentClass` are the two optional members.
   */
  datatype Acl = Acl(
    vocab: string,
    id: string,
    types: seq<string>,
    mode: seq<Uri>,
    accessTo: Uri,
    defaultFor: Uri,
    agent: Option<Uri>,
    agentClass: Option<Uri>)

  /** JavaScript truthiness of the optional `agent` argument: absent and "" are both false. */
  predicate Truthy(agent: Option<string>) {
    agent.Some? && agent.value != ""
  }

  /** The access modes as node references, one per mode, in order. */
  function UriModes(modes: seq<string>): (r: seq<Uri>)
    ensures |r| == |modes|
    ensures forall i :: 0 <= i < |modes| ==> r[i] == Uri(modes[i])
  {
    if modes == [] then [] else [Uri(modes[0])] + UriModes(modes[1..])
  }

  /** The authorization `createAclContent(id, modes[, agent])` returns. */
  function AclBody(id: string, modes: seq<string>, agent: Option<string>): (r: Acl)
    ensures r.vocab == ACL_NAMESPACE && r.id == id && r.types == [ACL_AUTHORIZATION]
    ensures |r.mode| == |modes| && forall i :: 0 <= i < |modes| ==> r.mode[i] == Uri(modes[i])
    ensures r.accessTo == Uri("./") && r.defaultFor == Uri("./")
    ensures Truthy(agent) ==> r.agent == Some(Uri(agent.value)) && r.agentClass == None
    ensures !Truthy(agent) ==> r.agentClass == Some(Uri(FOAF_AGENT)) && r.agent == None
    ensures r.agent.Some? != r.agentClass.Some?
  {
    Acl(ACL_NAMESPACE, id, [ACL_AUTHORIZATION], UriModes(modes), Uri("./"), Uri("./"),
        if Truthy(agent) then Some(Uri(agent.value)) else None,
        if Truthy(agent) then None else Some(Uri(FOAF_AGENT)))
  }

  /** `createAclContent`: collects the modes one by one, then sets the agent member. */
  method CreateAclContent(id: string, modes: seq<string>, agent: Option<string>) returns (acl: Acl)
    ensures acl == AclBody(id, modes, agent)
  {
    var uriModes: seq<Uri> := [];
    var i := 0;
    while i < |modes|
      invariant 0 <= i <= |modes|
      invariant |uriModes| == i && forall j :: 0 <= j < i ==> uriModes[j] == Uri(modes[j])
    {
      uriModes := uriModes + [Uri(modes[i])];
      i := i + 1;
    }
    acl := Acl(ACL_NAMESPACE, id, [ACL_AUTHORIZATION], uriModes, Uri("./"), Uri("./"), None, None);
    if !Truthy(agent) {
      acl := acl.(agentClass := Some(Uri(FOAF_AGENT)));
    } else {
      acl := acl.(agent := Some(Uri(agent.value)));
    }
    assert uriModes == UriModes(modes);
  }
}
