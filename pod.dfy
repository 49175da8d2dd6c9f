// The Solid pod the log lives on, as seen through `session.fetch`: its
// resources, the Link headers it reports, the requests it has received and
// the status codes it answers with. The status codes are an input: request
// number k is answered with `responses[k]`, so that every claim about the
// orchestrator is a claim about which requests it issues, in what order, and
// where it stops, for every possible sequence of answers.
module Pod {
  import opened Results
  import opened Rdf
  import opened Acl
  import opened Vocabulary

  /** A request the log's code sends (`session.fetch(target, {method, headers, body})`). */
  datatype Request =
    | Head(target: string)
      /** GET with `Accept: text/turtle`. */
    | Get(target: string)
      /** PUT with `Link: <ldp:Container>; rel="type"` and no body. */
    | PutContainer(target: string)
      /** PUT with `Link: <href>; rel="rel"` and no body: sets one Link header of `target`. */
    | PutLink(target: string, rel: string, href: string)
      /** PUT of a JSON-LD array of authorizations. */
    | PutAcl(target: string, body: seq<Acl>)
      /** PUT of a Turtle document. */
    | PutGraph(target: string, graph: seq<Triple>)
      /** POST of a Turtle document into the container `target`, with a `Slug` header. */
    | PostGraph(target: string, slug: string, graph: seq<Triple>)

  /** What the pod stores at an IRI. */
  datatype Resource =
    | Container(members: seq<string>)
    | AclDocument(body: seq<Acl>)
    | Document(graph: seq<Triple>)

  /**
   * The pod: its resources, the Link headers of each resource (relation type
   * to target IRI), the status codes it will answer with, and the requests it
   * has received so far.
   */
  datatype Server = Server(
    resources: map<string, Resource>,
    links: map<string, map<string, string>>,
    responses: seq<int>,
    issued: seq<Request>)

  /** A response: its status, its parsed Link header (absent when it has none), and its body as triples. */
  datatype Response = Response(status: int, links: Option<map<string, string>>, body: seq<Triple>)

  /** The answer to request number `k`; 0 (no answer at all) once the answers run out. */
  function AnswerAt(responses: seq<int>, k: nat): int {
    if k < |responses| then responses[k] else 0
  }

  predicate Success(status: int) { 200 <= status < 300 }

  predicate Writes(req: Request) { !req.Head? && !req.Get? }

  /** The status of the next request: a GET of a missing resource is 404, anything else is the next answer. */
  function StatusOf(s: Server, req: Request): int {
    if req.Get? && req.target !in s.resources then 404 else AnswerAt(s.responses, |s.issued|)
  }

  /** The triples a JSON-LD authorization parses to (relative `@id`s are left unresolved). */
  function AuthorizationTriples(a: Acl): seq<Triple> {
    var subject := Iri(a.id);
    TypeTriples(subject, a.types)
    + ModeTriples(subject, a.vocab + "mode", a.mode)
    + [ Triple(subject, Iri(a.vocab + "accessTo"), Iri(a.accessTo.id)),
        Triple(subject, Iri(a.vocab + "default"), Iri(a.defaultFor.id)) ]
    + (if a.agent.Some? then [Triple(subject, Iri(a.vocab + "agent"), Iri(a.agent.value.id))] else [])
    + (if a.agentClass.Some? then [Triple(subject, Iri(a.vocab + "agentClass"), Iri(a.agentClass.value.id))] else [])
  }

  function TypeTriples(subject: Term, types: seq<string>): seq<Triple> {
    if types == [] then [] else [Triple(subject, Iri(RDF_TYPE), Iri(types[0]))] + TypeTriples(subject, types[1..])
  }

  function ModeTriples(subject: Term, predicate_: string, modes: seq<Uri>): seq<Triple> {
    if modes == [] then [] else [Triple(subject, Iri(predicate_), Iri(modes[0].id))] + ModeTriples(subject, predicate_, modes[1..])
  }

  /** The triples of an `.acl` document. */
  function AclGraph(body: seq<Acl>): seq<Triple> {
    if body == [] then [] else AuthorizationTriples(body[0]) + AclGraph(body[1..])
  }

  /** No type triple of an authorization names an agent. */
  lemma {:induction false} TypeTriplesNameNoAgent(subject: Term, types: seq<string>)
    ensures Match(TypeTriples(subject, types), None, Some(Iri(ACL_AGENT)), None) == []
  {
    if types != [] {
      TypeTriplesNameNoAgent(subject, types[1..]);
    }
  }

  /** No mode triple of an authorization names an agent. */
  lemma {:induction false} ModeTriplesNameNoAgent(subject: Term, predicate_: string, modes: seq<Uri>)
    requires predicate_ != ACL_AGENT
    ensures Match(ModeTriples(subject, predicate_, modes), None, Some(Iri(ACL_AGENT)), None) == []
  {
    if modes != [] {
      ModeTriplesNameNoAgent(subject, predicate_, modes[1..]);
    }
  }

  /** Of the triples an authorization ends with, only its `agent` member's names an agent. */
  lemma AuthorizationTailAgent(a: Acl)
    requires a.vocab == ACL_NAMESPACE
    ensures var subject := Iri(a.id);
      Match([ Triple(subject, Iri(a.vocab + "accessTo"), Iri(a.accessTo.id)),
              Triple(subject, Iri(a.vocab + "default"), Iri(a.defaultFor.id)) ]
            + (if a.agent.Some? then [Triple(subject, Iri(a.vocab + "agent"), Iri(a.agent.value.id))] else [])
            + (if a.agentClass.Some? then [Triple(subject, Iri(a.vocab + "agentClass"), Iri(a.agentClass.value.id))] else []),
            None, Some(Iri(ACL_AGENT)), None)
      == if a.agent.Some? then [Triple(Iri(a.id), Iri(ACL_AGENT), Iri(a.agent.value.id))] else []
  {
    var subject := Iri(a.id);
    var p := Some(Iri(ACL_AGENT));
    var targets := [ Triple(subject, Iri(a.vocab + "accessTo"), Iri(a.accessTo.id)),
                     Triple(subject, Iri(a.vocab + "default"), Iri(a.defaultFor.id)) ];
    var agent := if a.agent.Some? then [Triple(subject, Iri(a.vocab + "agent"), Iri(a.agent.value.id))] else [];
    var agentClass := if a.agentClass.Some? then [Triple(subject, Iri(a.vocab + "agentClass"), Iri(a.agentClass.value.id))] else [];
    assert |a.vocab + "accessTo"| != |ACL_AGENT| && |a.vocab + "default"| != |ACL_AGENT|;
    assert |a.vocab + "agentClass"| != |ACL_AGENT|;
    assert Match(targets, None, p, None) == [] by {
      assert targets[1..][1..] == [];
    }
    MatchAppend(targets + agent, agentClass, None, p, None);
    MatchAppend(targets, agent, None, p, None);
  }

  /** The only `acl:agent` triple of an authorization is the one its `agent` member gives, if it has one. */
  lemma AuthorizationAgent(a: Acl)
    requires a.vocab == ACL_NAMESPACE
    ensures Match(AuthorizationTriples(a), None, Some(Iri(ACL_AGENT)), None)
      == if a.agent.Some? then [Triple(Iri(a.id), Iri(ACL_AGENT), Iri(a.agent.value.id))] else []
  {
    var subject := Iri(a.id);
    var p := Some(Iri(ACL_AGENT));
    var types := TypeTriples(subject, a.types);
    var modes := ModeTriples(subject, a.vocab + "mode", a.mode);
    var tail := [ Triple(subject, Iri(a.vocab + "accessTo"), Iri(a.accessTo.id)),
                  Triple(subject, Iri(a.vocab + "default"), Iri(a.defaultFor.id)) ]
      + (if a.agent.Some? then [Triple(subject, Iri(a.vocab + "agent"), Iri(a.agent.value.id))] else [])
      + (if a.agentClass.Some? then [Triple(subject, Iri(a.vocab + "agentClass"), Iri(a.agentClass.value.id))] else []);
    assert AuthorizationTriples(a) == types + modes + tail;
    assert |a.vocab + "mode"| != |ACL_AGENT|;
    TypeTriplesNameNoAgent(subject, a.types);
    ModeTriplesNameNoAgent(subject, a.vocab + "mode", a.mode);
    AuthorizationTailAgent(a);
    MatchAppend(types + modes, tail, None, p, None);
    MatchAppend(types, modes, None, p, None);
  }

  /** The listing of a container: its type and one `ldp:contains` triple per member. */
  function ContainerGraph(iri: string, members: seq<string>): seq<Triple> {
    [Triple(Iri(iri), Iri(RDF_TYPE), Iri(LDP_CONTAINER))] + ContainsTriples(iri, members)
  }

  function ContainsTriples(iri: string, members: seq<string>): seq<Triple> {
    if members == [] then []
    else [Triple(Iri(iri), Iri(LDP_CONTAINS), Iri(members[0]))] + ContainsTriples(iri, members[1..])
  }

  /** The body of a successful GET. */
  function Representation(iri: string, r: Resource): seq<Triple> {
    match r
    case Container(members) => ContainerGraph(iri, members)
    case AclDocument(body) => AclGraph(body)
    case Document(graph) => graph
  }

  /** The effect of a write the pod accepted with status `status`; a rejected write changes nothing. */
  function Apply(s: Server, req: Request, status: int): Server {
    if !Success(status) then s
    else
      match req
      case Head(_) => s
      case Get(_) => s
      case PutContainer(target) =>
        if target in s.resources && s.resources[target].Container? then s
        else s.(resources := s.resources[target := Container([])])
      case PutLink(target, rel, href) =>
        var old_ := if target in s.links then s.links[target] else map[];
        s.(links := s.links[target := old_[rel := href]])
      case PutAcl(target, body) => s.(resources := s.resources[target := AclDocument(body)])
      case PutGraph(target, graph) => s.(resources := s.resources[target := Document(graph)])
      case PostGraph(target, slug, graph) => s.(resources := s.resources[target + slug := Document(graph)])
  }

  /** The pod receives one request: it answers it, applies it if it accepted it, and logs it. */
  function Respond(s: Server, req: Request): (r: (Response, Server))
    ensures r.1.issued == s.issued + [req] && r.1.responses == s.responses
    ensures r.0.status == StatusOf(s, req)
    ensures !Writes(req) ==> r.1.resources == s.resources && r.1.links == s.links
  {
    var status := StatusOf(s, req);
    var links := if req.target in s.links then Some(s.links[req.target]) else None;
    var body := if req.Get? && status == 200 then Representation(req.target, s.resources[req.target]) else [];
    var s' := Apply(s, req, status);
    (Response(status, links, body), s'.(issued := s.issued + [req]))
  }

  /** A request leaves every resource it does not store as it was, and only a Link-header write changes Link headers. */
  lemma RespondKeeps(s: Server, req: Request, iri: string)
    requires ResourceTarget(req) != Some(iri)
    ensures ResourceAt(Respond(s, req).1, iri) == ResourceAt(s, iri)
    ensures !req.PutLink? ==> Respond(s, req).1.links == s.links
  {
  }

  /** An accepted graph PUT stores its graph at its target and logs itself; nothing else changes. */
  lemma PutGraphStores(s: Server, iri: string, graph: seq<Triple>)
    requires Success(StatusOf(s, PutGraph(iri, graph)))
    ensures Respond(s, PutGraph(iri, graph)).1
      == s.(resources := s.resources[iri := Document(graph)], issued := s.issued + [PutGraph(iri, graph)])
  {
  }

  /** The authenticated session: every `fetch` goes to one pod. */
  class Remote {
    var server: Server

    constructor (s: Server)
      ensures server == s
    {
      server := s;
    }

    /** `session.fetch(...)`: sends one request and waits for its response. */
    method Send(req: Request) returns (resp: Response)
      modifies this
      ensures (resp, server) == Respond(old(server), req)
    {
      var r := Respond(server, req);
      resp := r.0;
      server := r.1;
    }
  }

  /** One write of a multi-step operation and the statuses that let the operation go on. */
  datatype Step = Step(request: Request, accepted: set<int>)

  /** The requests of the steps, in order. */
  function Requests(plan: seq<Step>): seq<Request> {
    seq(|plan|, i requires 0 <= i < |plan| => plan[i].request)
  }

  /**
   * Sends the steps in order and stops after the first one whose status is
   * not accepted, reporting that request and its status. Nothing already
   * done is undone.
   */
  function Issue(s: Server, plan: seq<Step>): (Server, Option<(Request, int)>)
    decreases |plan|
  {
    if plan == [] then (s, None)
    else
      var (resp, s1) := Respond(s, plan[0].request);
      if resp.status in plan[0].accepted then Issue(s1, plan[1..])
      else (s1, Some((plan[0].request, resp.status)))
  }

  /** The index of the first step whose answer (from position `start` on) is not accepted, or the plan's length. */
  function FirstRejected(responses: seq<int>, start: nat, plan: seq<Step>): (n: nat)
    ensures n <= |plan|
    ensures forall i :: 0 <= i < n ==> AnswerAt(responses, start + i) in plan[i].accepted
    ensures n < |plan| ==> AnswerAt(responses, start + n) !in plan[n].accepted
    decreases |plan|
  {
    if plan == [] then 0
    else if AnswerAt(responses, start) in plan[0].accepted then 1 + FirstRejected(responses, start + 1, plan[1..])
    else 0
  }

  predicate NoReads(plan: seq<Step>) {
    forall i :: 0 <= i < |plan| ==> Writes(plan[i].request)
  }

  /** The resource a write stores, if it stores one (a Link-header write stores none). */
  function ResourceTarget(req: Request): Option<string> {
    match req
    case PutContainer(target) => Some(target)
    case PutAcl(target, _) => Some(target)
    case PutGraph(target, _) => Some(target)
    case PostGraph(target, slug, _) => Some(target + slug)
    case _ => None
  }

  /** `r` is what the accepted write `req` leaves at its target. */
  predicate Wrote(req: Request, r: Resource) {
    match req
    case PutContainer(_) => r.Container?
    case PutAcl(_, body) => r == AclDocument(body)
    case PutGraph(_, graph) => r == Document(graph)
    case PostGraph(_, _, graph) => r == Document(graph)
    case _ => false
  }

  /** Every status a step accepts is a success status, so an accepted write takes effect. */
  predicate AcceptsOnlySuccess(plan: seq<Step>) {
    forall i, status :: 0 <= i < |plan| && status in plan[i].accepted ==> Success(status)
  }

  /** The pod's answers accept every step of the plan. */
  predicate AllAccepted(s: Server, plan: seq<Step>) {
    forall i :: 0 <= i < |plan| ==> AnswerAt(s.responses, |s.issued| + i) in plan[i].accepted
  }

  function LinkOf(s: Server, target: string, rel: string): Option<string> {
    if target in s.links && rel in s.links[target] then Some(s.links[target][rel]) else None
  }

  function ResourceAt(s: Server, iri: string): Option<Resource> {
    if iri in s.resources then Some(s.resources[iri]) else None
  }
}
