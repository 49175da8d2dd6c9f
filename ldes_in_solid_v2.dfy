// The version-2 handle on a log (src/LDESinSolidv2.ts): it carries the log's
// configuration instead of discovering the shape, can read that configuration
// back from the pod, and creates a whole new log in seven writes.
module LdesInSolidV2 {
  import opened Results
  import opened Rdf
  import opened Numbers
  import opened Vocabulary
  import opened Acl
  import opened Pod
  import opened Plan
  import opened Reads
  import opened EventStream

  /** A log's configuration: its root container, relation type, shape and path. */
  datatype LdesConfig = LdesConfig(base: string, relationType: string, shape: string, treePath: string)

  /** The agent the log's owner ACL grants control to. */
  datatype AclConfig = AclConfig(agent: string)

  /** The object of the first triple fitting `(s, p, ?)`; indexing an empty match throws. */
  function FirstObject(g: seq<Triple>, s: Option<Term>, p: string): (r: Result<Term>)
    ensures r.Ok? <==> Match(g, s, Some(Iri(p)), None) != []
    ensures r.Ok? ==> Triple(if s.Some? then s.value else Match(g, s, Some(Iri(p)), None)[0].s, Iri(p), r.value) in g
    ensures r.Err? ==> r.error == MissingTriple(p)
  {
    var found := Match(g, s, Some(Iri(p)), None);
    if found == [] then Err(MissingTriple(p))
    else
      MatchMembers(g, s, Some(Iri(p)), None);
      assert found[0] in found;
      Ok(found[0].o)
  }

  /**
   * The configuration `getConfig` reads off the parsed `root.ttl` and
   * `.acl`: the Collection's shape, the root's first relation, that
   * relation's type and path, and the first agent of the ACL, in that order.
   */
  function ConfigFromGraphs(base: string, rootGraph: seq<Triple>, aclGraph: seq<Triple>): Result<(LdesConfig, AclConfig)> {
    var shape :- FirstObject(rootGraph, Some(Iri(CollectionIri(base))), TREE_SHAPE);
    var relation :- FirstObject(rootGraph, Some(Iri(RootIri(base))), TREE_RELATION);
    var relationType :- FirstObject(rootGraph, Some(relation), RDF_TYPE);
    var treePath :- FirstObject(rootGraph, Some(relation), TREE_PATH);
    var agent :- FirstObject(aclGraph, None, ACL_AGENT);
    Ok((LdesConfig(base, TermId(relationType), TermId(shape), TermId(treePath)), AclConfig(TermId(agent))))
  }

  /** `getConfig(base)`: GETs `root.ttl`, then `.acl`, then reads the configuration off both. */
  function GetConfigSpec(s: Server, base: string): (Result<(LdesConfig, AclConfig)>, Server) {
    var (rootGraph, s1) := FetchSpec(s, RootIri(base));
    if rootGraph.Err? then (Err(rootGraph.error), s1)
    else
      var (aclGraph, s2) := FetchSpec(s1, base + ".acl");
      if aclGraph.Err? then (Err(aclGraph.error), s2)
      else (ConfigFromGraphs(base, rootGraph.value, aclGraph.value), s2)
  }

  /** The owner's authorization: read, write and control for the configured agent. */
  function AgentControlAcl(agent: string): Acl {
    AclBody("orchestrator", [ACL_READ, ACL_WRITE, ACL_CONTROL], Some(agent))
  }

  /** The ACL of the root container: the owner's control, and read for everyone. */
  function RootAcl(agent: string): seq<Acl> {
    [AgentControlAcl(agent), AclBody("#authorization", [ACL_READ], None)]
  }

  /** The ACL of the first container: the owner's control, and read and append for everyone. */
  function FirstContainerAcl(agent: string): seq<Acl> {
    [AgentControlAcl(agent), AclBody("#authorization", [ACL_READ, ACL_APPEND], None)]
  }

  /**
   * The seven writes of `createLDESinLDP`, each with the statuses that let
   * it go on: the root container (201), its ACL (201 or 205), the first
   * container (201), its shape (205), the root's inbox (205), the first
   * container's ACL (201 or 205), and `root.ttl`, POSTed into the root (201).
   */
  function InitPlan(cfg: LdesConfig, agent: string, name: string): seq<Step>
    requires IsTimestampName(name)
  {
    RootSteps(cfg, agent) + (FirstContainerSteps(cfg, name) + ViewSteps(cfg, agent, name, InitialGraph(cfg.shape, cfg.treePath, name, cfg.base)))
  }

  /** The root container and its ACL. */
  function RootSteps(cfg: LdesConfig, agent: string): seq<Step> {
    [ Step(PutContainer(cfg.base), {201}),
      Step(PutAcl(cfg.base + ".acl", RootAcl(agent)), {201, 205}) ]
  }

  /** The first container, its shape, and the root's inbox link to it. */
  function FirstContainerSteps(cfg: LdesConfig, name: string): seq<Step> {
    var first := ContainerIri(cfg.base, name);
    [ Step(PutContainer(first), {201}),
      Step(PutLink(first, LDP_CONSTRAINED_BY, cfg.shape), {205}),
      Step(PutLink(cfg.base, LDP_INBOX, first), {205}) ]
  }

  /** The first container's ACL and `root.ttl`, holding `graph`. */
  function ViewSteps(cfg: LdesConfig, agent: string, name: string, graph: seq<Triple>): seq<Step> {
    [ Step(PutAcl(ContainerIri(cfg.base, name) + ".acl", FirstContainerAcl(agent)), {201, 205}),
      Step(PostGraph(cfg.base, "root.ttl", graph), {201}) ]
  }

  /** The outcome of a creation phase: the pod afterwards and the error of its refused step, if any. */
  function PhaseOutcome(s: Server, plan: seq<Step>): (Result<()>, Server) {
    var (s1, failure) := Issue(s, plan);
    (if failure.Some? then Err(InitError(failure.value)) else Ok(()), s1)
  }

  /** The error a refused creation step throws: a container that answered 205 already existed. */
  function InitError(failure: (Request, int)): Error {
    match failure.0
    case PutContainer(target) => if failure.1 == 205 then AlreadyExists(target) else NotCreated(target, failure.1)
    case PostGraph(target, slug, _) => Rejected(target + slug, failure.1)
    case _ => Rejected(failure.0.target, failure.1)
  }

  /** `createLDESinLDP`, with the clock reading `now` the first container is named after. */
  function CreateSpec(s: Server, cfg: LdesConfig, acl: AclConfig, now: EpochMillis): (Result<()>, Server) {
    PhaseOutcome(s, InitPlan(cfg, acl.agent, TimestampName(now)))
  }

  /** The version-2 handle: the log's configuration, its ACL configuration, a session and a threshold. */
  class LdesInSolid {
    const ldesConfig: LdesConfig
    const aclConfig: AclConfig
    const session: Remote
    const amount: int

    /** An absent or zero `amount` means 100. */
    constructor (ldesConfig: LdesConfig, aclConfig: AclConfig, session: Remote, amount: Option<int>)
      ensures this.ldesConfig == ldesConfig && this.aclConfig == aclConfig && this.session == session
      ensures this.amount == ThresholdOf(amount)
    {
      this.ldesConfig := ldesConfig;
      this.aclConfig := aclConfig;
      this.session := session;
      this.amount := ThresholdOf(amount);
    }

    /** `getConfig`: the two fetches, then the five lookups, each failing on an empty match. */
    static method GetConfig(base: string, session: Remote) returns (r: Result<(LdesConfig, AclConfig)>)
      modifies session
      ensures (r, session.server) == GetConfigSpec(old(session.server), base)
    {
      var rootStore := FetchStore(RootIri(base), session);
      if rootStore.Err? {
        return Err(rootStore.error);
      }
      var aclStore := FetchStore(base + ".acl", session);
      if aclStore.Err? {
        return Err(aclStore.error);
      }
      var shapes := rootStore.value.GetQuads(Some(Iri(base + "#Collection")), Some(Iri(TREE_SHAPE)), None);
      if shapes == [] {
        return Err(MissingTriple(TREE_SHAPE));
      }
      var relations := rootStore.value.GetQuads(Some(Iri(base + "root.ttl")), Some(Iri(TREE_RELATION)), None);
      if relations == [] {
        return Err(MissingTriple(TREE_RELATION));
      }
      var relation := relations[0].o;
      var types := rootStore.value.GetQuads(Some(relation), Some(Iri(RDF_TYPE)), None);
      if types == [] {
        return Err(MissingTriple(RDF_TYPE));
      }
      var paths := rootStore.value.GetQuads(Some(relation), Some(Iri(TREE_PATH)), None);
      if paths == [] {
        return Err(MissingTriple(TREE_PATH));
      }
      var agents := aclStore.value.GetQuads(None, Some(Iri(ACL_AGENT)), None);
      if agents == [] {
        return Err(MissingTriple(ACL_AGENT));
      }
      var ldes := LdesConfig(base, TermId(types[0].o), TermId(shapes[0].o), TermId(paths[0].o));
      r := Ok((ldes, AclConfig(TermId(agents[0].o))));
    }

    /** `getAmountResources`: the number of `ldp:contains` triples of the current inbox. */
    method GetAmountResources() returns (r: Result<nat>)
      modifies session
      ensures (r, session.server) == AmountSpec(old(session.server), ldesConfig.base)
    {
      var inbox := GetCurrentContainer();
      if inbox.Err? {
        return Err(inbox.error);
      }
      var store := FetchStore(inbox.value, session);
      if store.Err? {
        return Err(store.error);
      }
      var resources := store.value.GetQuads(Some(Iri(inbox.value)), Some(Iri(LDP_CONTAINS)), None);
      r := Ok(|resources|);
    }

    /** `getCurrentContainer`: the `ldp:inbox` Link header of the root container. */
    method GetCurrentContainer() returns (r: Result<string>)
      modifies session
      ensures (r, session.server) == CurrentContainerSpec(old(session.server), ldesConfig.base)
    {
      var resp := session.Send(Head(ldesConfig.base));
      if resp.links.None? {
        return Err(NoLinkHeader(ldesConfig.base));
      }
      if LDP_INBOX !in resp.links.value {
        return Err(NoInboxLink);
      }
      r := Ok(resp.links.value[LDP_INBOX]);
    }

    /** `fetchStore(iri, session)`: a GET answering 200, parsed into a new store. */
    static method FetchStore(iri: string, session: Remote) returns (r: Result<Store>)
      modifies session
      ensures var (f, s') := FetchSpec(old(session.server), iri);
        && session.server == s' && r.Ok? == f.Ok?
        && (r.Ok? ==> fresh(r.value) && r.value.triples == f.value && r.value.blankIndex == 0)
        && (r.Err? ==> r.error == f.error)
    {
      var resp := session.Send(Get(iri));
      if resp.status != 200 {
        return Err(FetchFailed(iri));
      }
      var store := new Store(resp.body);
      r := Ok(store);
    }

    /** `createContainer(iri, session)`: only a new container (201) will do; 205 means it already existed. */
    static method CreateContainer(iri: string, session: Remote) returns (r: Result<()>)
      modifies session
      ensures var (resp, s') := Respond(old(session.server), PutContainer(iri));
        && session.server == s'
        && r == if resp.status == 201 then Ok(()) else Err(InitError((PutContainer(iri), resp.status)))
    {
      var resp := session.Send(PutContainer(iri));
      if resp.status != 201 {
        if resp.status == 205 {
          return Err(AlreadyExists(iri));
        }
        return Err(NotCreated(iri, resp.status));
      }
      r := Ok(());
    }

    /** `updateAcl(aclIRI, body, session)`: the PUT must answer 201 or 205. */
    static method UpdateAcl(aclIri: string, body: seq<Acl>, session: Remote) returns (r: Result<Response>)
      modifies session
      ensures var (resp, s') := Respond(old(session.server), PutAcl(aclIri, body));
        && session.server == s'
        && (r.Ok? <==> resp.status in {201, 205})
        && (r.Ok? ==> r.value == resp)
        && (r.Err? ==> r.error == Rejected(aclIri, resp.status))
    {
      var resp := session.Send(PutAcl(aclIri, body));
      if !(resp.status == 201 || resp.status == 205) {
        return Err(Rejected(aclIri, resp.status));
      }
      r := Ok(resp);
    }

    /** `addShape(iri, shapeIRI, session)`: the `ldp:constrainedBy` Link header; must answer 205. */
    static method AddShape(iri: string, shapeIri: string, session: Remote) returns (r: Result<()>)
      modifies session
      ensures var (resp, s') := Respond(old(session.server), PutLink(iri, LDP_CONSTRAINED_BY, shapeIri));
        && session.server == s'
        && r == if resp.status == 205 then Ok(()) else Err(Rejected(iri, resp.status))
    {
      var resp := session.Send(PutLink(iri, LDP_CONSTRAINED_BY, shapeIri));
      if resp.status != 205 {
        return Err(Rejected(iri, resp.status));
      }
      r := Ok(());
    }

    /** `updateInbox(iri, inboxIRI, session)`: the `ldp:inbox` Link header; must answer 205. */
    static method UpdateInbox(iri: string, inboxIri: string, session: Remote) returns (r: Result<()>)
      modifies session
      ensures var (resp, s') := Respond(old(session.server), PutLink(iri, LDP_INBOX, inboxIri));
        && session.server == s'
        && r == if resp.status == 205 then Ok(()) else Err(Rejected(iri, resp.status))
    {
      var resp := session.Send(PutLink(iri, LDP_INBOX, inboxIri));
      if resp.status != 205 {
        return Err(Rejected(iri, resp.status));
      }
      r := Ok(());
    }

    /**
     * `createLDESinLDP`: the seven writes in order, stopping at the first
     * refused one; `now` is the clock reading naming the first container.
     */
    method CreateLdesInLdp(now: EpochMillis) returns (r: Result<()>)
      modifies session
      ensures (r, session.server) == CreateSpec(old(session.server), ldesConfig, aclConfig, now)
    {
      var firstContainerName := TimestampName(now);
      ghost var s0 := session.server;
      ghost var graph := InitialGraph(ldesConfig.shape, ldesConfig.treePath, firstContainerName, ldesConfig.base);
      var agentControlAcl := CreateAclContent("orchestrator", [ACL_READ, ACL_WRITE, ACL_CONTROL], Some(aclConfig.agent));
      r := CreateRoot(agentControlAcl);
      if r.Err? {
        PhaseOutcomeAppend(s0, RootSteps(ldesConfig, aclConfig.agent), FirstContainerSteps(ldesConfig, firstContainerName) + ViewSteps(ldesConfig, aclConfig.agent, firstContainerName, graph));
        return;
      }
      ghost var s1 := session.server;
      r := CreateFirstContainer(firstContainerName);
      if r.Err? {
        PhaseOutcomeAppend(s1, FirstContainerSteps(ldesConfig, firstContainerName), ViewSteps(ldesConfig, aclConfig.agent, firstContainerName, graph));
        PhaseOutcomeAppend(s0, RootSteps(ldesConfig, aclConfig.agent), FirstContainerSteps(ldesConfig, firstContainerName) + ViewSteps(ldesConfig, aclConfig.agent, firstContainerName, graph));
        return;
      }
      ghost var s2 := session.server;
      r := CreateView(firstContainerName, agentControlAcl);
      PhaseOutcomeAppend(s1, FirstContainerSteps(ldesConfig, firstContainerName), ViewSteps(ldesConfig, aclConfig.agent, firstContainerName, graph));
      PhaseOutcomeAppend(s0, RootSteps(ldesConfig, aclConfig.agent), FirstContainerSteps(ldesConfig, firstContainerName) + ViewSteps(ldesConfig, aclConfig.agent, firstContainerName, graph));
    }

    /** The root container and its ACL. */
    method CreateRoot(agentControlAcl: Acl) returns (r: Result<()>)
      requires agentControlAcl == AgentControlAcl(aclConfig.agent)
      modifies session
      ensures (r, session.server) == PhaseOutcome(old(session.server), RootSteps(ldesConfig, aclConfig.agent))
    {
      var base := ldesConfig.base;
      ghost var s0 := session.server;
      ghost var plan := RootSteps(ldesConfig, aclConfig.agent);
      r := CreateContainer(base, session);
      if r.Err? {
        assert Issue(s0, plan) == (session.server, Some((PutContainer(base), AnswerAt(s0.responses, |s0.issued|))));
        return;
      }
      assert Issue(s0, plan) == Issue(session.server, plan[1..]);
      var readAcl := CreateAclContent("#authorization", [ACL_READ], None);
      assert [agentControlAcl, readAcl] == RootAcl(aclConfig.agent);
      var rootAcl := UpdateAcl(base + ".acl", [agentControlAcl, readAcl], session);
      if rootAcl.Err? {
        return Err(rootAcl.error);
      }
      assert Issue(s0, plan) == Issue(session.server, plan[2..]) && plan[2..] == [];
    }

    /** The first container, its shape, and the inbox link to it. */
    method CreateFirstContainer(firstContainerName: string) returns (r: Result<()>)
      modifies session
      ensures (r, session.server) == PhaseOutcome(old(session.server), FirstContainerSteps(ldesConfig, firstContainerName))
    {
      var base := ldesConfig.base;
      ghost var s0 := session.server;
      ghost var plan := FirstContainerSteps(ldesConfig, firstContainerName);
      var firstContainerIri := base + firstContainerName + "/";
      r := CreateContainer(firstContainerIri, session);
      if r.Err? {
        assert Issue(s0, plan) == (session.server, Some((PutContainer(firstContainerIri), AnswerAt(s0.responses, |s0.issued|))));
        return;
      }
      ghost var s1 := session.server;
      assert Issue(s0, plan) == Issue(s1, plan[1..]);
      r := AddShape(firstContainerIri, ldesConfig.shape, session);
      if r.Err? {
        assert Issue(s1, plan[1..]) == (session.server, Some((plan[1].request, AnswerAt(s1.responses, |s1.issued|))));
        return;
      }
      ghost var s2 := session.server;
      assert Issue(s0, plan) == Issue(s2, plan[2..]);
      r := UpdateInbox(base, firstContainerIri, session);
      assert plan[2..][1..] == [];
      assert Issue(s2, plan[2..]) == (session.server, if r.Ok? then None else Some((plan[2].request, AnswerAt(s2.responses, |s2.issued|))));
    }

    /** The first container's ACL and `root.ttl`. */
    method CreateView(firstContainerName: string, agentControlAcl: Acl) returns (r: Result<()>)
      requires IsTimestampName(firstContainerName) && agentControlAcl == AgentControlAcl(aclConfig.agent)
      modifies session
      ensures (r, session.server) == PhaseOutcome(old(session.server), ViewSteps(ldesConfig, aclConfig.agent, firstContainerName, InitialGraph(ldesConfig.shape, ldesConfig.treePath, firstContainerName, ldesConfig.base)))
    {
      var base := ldesConfig.base;
      ghost var s0 := session.server;
      ghost var plan := ViewSteps(ldesConfig, aclConfig.agent, firstContainerName, InitialGraph(ldesConfig.shape, ldesConfig.treePath, firstContainerName, ldesConfig.base));
      var firstContainerIri := base + firstContainerName + "/";
      var readAppendAcl := CreateAclContent("#authorization", [ACL_READ, ACL_APPEND], None);
      assert [agentControlAcl, readAppendAcl] == FirstContainerAcl(aclConfig.agent);
      var firstAcl := UpdateAcl(firstContainerIri + ".acl", [agentControlAcl, readAppendAcl], session);
      if firstAcl.Err? {
        assert Issue(s0, plan) == (session.server, Some((plan[0].request, AnswerAt(s0.responses, |s0.issued|))));
        return Err(firstAcl.error);
      }
      ghost var s1 := session.server;
      assert Issue(s0, plan) == Issue(s1, plan[1..]);
      var rootGraph := EventStreamQuads(ldesConfig.shape, ldesConfig.treePath, firstContainerName, base);
      var postRootResponse := session.Send(PostGraph(base, "root.ttl", rootGraph));
      assert plan[1..][1..] == [];
      assert Issue(s1, plan[1..]) == (session.server, if postRootResponse.status == 201 then None else Some((plan[1].request, postRootResponse.status)));
      if postRootResponse.status != 201 {
        return Err(Rejected(base + "root.ttl", postRootResponse.status));
      }
      r := Ok(());
    }
  }

  /** `createEventStream(...)` followed by `getQuads(null, null, null, null)`: the new log's whole graph. */
  method EventStreamQuads(shape: string, treePath: string, name: string, base: string) returns (g: seq<Triple>)
    requires IsTimestampName(name)
    ensures g == InitialGraph(shape, treePath, name, base)
  {
    var eventStream := CreateEventStream(shape, treePath, name, base);
    g := eventStream.GetQuads(None, None, None);
    MatchAll(eventStream.triples);
  }

  /** Two creation phases one after the other are the outcome of their concatenation. */
  lemma PhaseOutcomeAppend(s: Server, p1: seq<Step>, p2: seq<Step>)
    ensures PhaseOutcome(s, p1 + p2)
      == if PhaseOutcome(s, p1).0.Err? then PhaseOutcome(s, p1) else PhaseOutcome(PhaseOutcome(s, p1).1, p2)
  {
    IssueAppend(s, p1, p2);
  }

  /**
   * `getConfig` only reads: it GETs `root.ttl` and, when that succeeded,
   * `.acl`, and changes nothing on the pod.
   */
  lemma GetConfigOnlyReads(s: Server, base: string)
    ensures var (r, s') := GetConfigSpec(s, base);
      && s'.resources == s.resources && s'.links == s.links
      && s'.issued == s.issued + (if FetchSpec(s, RootIri(base)).0.Ok? then [Get(RootIri(base)), Get(base + ".acl")] else [Get(RootIri(base))])
      && (FetchSpec(s, RootIri(base)).0.Err? ==> r == Err(FetchFailed(RootIri(base))))
  {
    FetchReadsResource(s, RootIri(base));
    FetchReadsResource(s.(issued := s.issued + [Get(RootIri(base))]), base + ".acl");
  }

  /** Every creation step is a write that takes effect when accepted. */
  lemma InitPlanWrites(cfg: LdesConfig, agent: string, name: string)
    requires IsTimestampName(name)
    ensures |InitPlan(cfg, agent, name)| == 7
    ensures NoReads(InitPlan(cfg, agent, name)) && AcceptsOnlySuccess(InitPlan(cfg, agent, name))
  {
    var graph := InitialGraph(cfg.shape, cfg.treePath, name, cfg.base);
    PhasesWrite(cfg, agent, name, graph);
    PlanAppendWrites(FirstContainerSteps(cfg, name), ViewSteps(cfg, agent, name, graph));
    PlanAppendWrites(RootSteps(cfg, agent), FirstContainerSteps(cfg, name) + ViewSteps(cfg, agent, name, graph));
  }

  lemma PhasesWrite(cfg: LdesConfig, agent: string, name: string, graph: seq<Triple>)
    ensures NoReads(RootSteps(cfg, agent)) && AcceptsOnlySuccess(RootSteps(cfg, agent))
    ensures NoReads(FirstContainerSteps(cfg, name)) && AcceptsOnlySuccess(FirstContainerSteps(cfg, name))
    ensures NoReads(ViewSteps(cfg, agent, name, graph)) && AcceptsOnlySuccess(ViewSteps(cfg, agent, name, graph))
  {
  }

  /**
   * `createLDESinLDP` sends its seven writes in order up to and including
   * the first one the pod refuses, and no later one.
   */
  lemma CreateSendsUpToFirstRefusal(s: Server, cfg: LdesConfig, acl: AclConfig, now: EpochMillis)
    ensures var plan := InitPlan(cfg, acl.agent, TimestampName(now));
      var n := FirstRejected(s.responses, |s.issued|, plan);
      CreateSpec(s, cfg, acl, now).1.issued == s.issued + Requests(plan)[..if n < |plan| then n + 1 else n]
  {
    var plan := InitPlan(cfg, acl.agent, TimestampName(now));
    InitPlanWrites(cfg, acl.agent, TimestampName(now));
    IssueSendsUpToFirstRejection(s, plan);
  }

  /**
   * `createLDESinLDP` succeeds exactly when the pod accepts all seven
   * writes, and otherwise fails with the error of the first refused one.
   */
  lemma CreateReportsFirstRefusal(s: Server, cfg: LdesConfig, acl: AclConfig, now: EpochMillis)
    ensures ReportsFirstRefusal(CreateSpec(s, cfg, acl, now).0, s.responses, |s.issued|,
                                InitPlan(cfg, acl.agent, TimestampName(now)))
  {
    var plan := InitPlan(cfg, acl.agent, TimestampName(now));
    InitPlanWrites(cfg, acl.agent, TimestampName(now));
    PhaseReportsFirstRefusal(s, plan);
  }

  /**
   * The outcome `r` of a creation phase whose steps `plan` are answered from
   * position `start` of `responses` on: success exactly when no step is
   * refused, and otherwise the error of the first refused step.
   */
  predicate ReportsFirstRefusal(r: Result<()>, responses: seq<int>, start: nat, plan: seq<Step>) {
    var n := FirstRejected(responses, start, plan);
    && (r.Ok? <==> n == |plan|)
    && (n < |plan| ==> r == Err(InitError((plan[n].request, AnswerAt(responses, start + n)))))
  }

  /** A creation phase succeeds exactly when its plan meets no refusal, and otherwise fails with the first refusal's error. */
  lemma PhaseReportsFirstRefusal(s: Server, plan: seq<Step>)
    requires NoReads(plan)
    ensures ReportsFirstRefusal(PhaseOutcome(s, plan).0, s.responses, |s.issued|, plan)
  {
    IssueReportsFirstRejection(s, plan);
  }

  /** The error each refused creation step throws, for any graph the view phase posts. */
  lemma PhaseErrors(cfg: LdesConfig, agent: string, name: string, graph: seq<Triple>, status: int)
    ensures var plan := RootSteps(cfg, agent) + (FirstContainerSteps(cfg, name) + ViewSteps(cfg, agent, name, graph));
      var first := ContainerIri(cfg.base, name);
      && |plan| == 7
      && InitError((plan[0].request, status)) == (if status == 205 then AlreadyExists(cfg.base) else NotCreated(cfg.base, status))
      && InitError((plan[1].request, status)) == Rejected(cfg.base + ".acl", status)
      && InitError((plan[2].request, status)) == (if status == 205 then AlreadyExists(first) else NotCreated(first, status))
      && InitError((plan[3].request, status)) == Rejected(first, status)
      && InitError((plan[4].request, status)) == Rejected(cfg.base, status)
      && InitError((plan[5].request, status)) == Rejected(first + ".acl", status)
      && InitError((plan[6].request, status)) == Rejected(RootIri(cfg.base), status)
  {
  }

  /** The error each refused creation step throws; a container that answers 205 already existed. */
  lemma InitErrors(cfg: LdesConfig, agent: string, name: string, status: int)
    requires IsTimestampName(name)
    ensures var plan := InitPlan(cfg, agent, name);
      var first := ContainerIri(cfg.base, name);
      && InitError((plan[0].request, status)) == (if status == 205 then AlreadyExists(cfg.base) else NotCreated(cfg.base, status))
      && InitError((plan[1].request, status)) == Rejected(cfg.base + ".acl", status)
      && InitError((plan[2].request, status)) == (if status == 205 then AlreadyExists(first) else NotCreated(first, status))
      && InitError((plan[3].request, status)) == Rejected(first, status)
      && InitError((plan[4].request, status)) == Rejected(cfg.base, status)
      && InitError((plan[5].request, status)) == Rejected(first + ".acl", status)
      && InitError((plan[6].request, status)) == Rejected(RootIri(cfg.base), status)
  {
    PhaseErrors(cfg, agent, name, InitialGraph(cfg.shape, cfg.treePath, name, cfg.base), status);
  }

  /** A creation that succeeded was accepted at every step and sent nothing else. */
  lemma CreateAccepted(s: Server, cfg: LdesConfig, acl: AclConfig, now: EpochMillis)
    requires CreateSpec(s, cfg, acl, now).0.Ok?
    ensures var plan := InitPlan(cfg, acl.agent, TimestampName(now));
      && AllAccepted(s, plan)
      && CreateSpec(s, cfg, acl, now).1 == Issue(s, plan).0
      && |CreateSpec(s, cfg, acl, now).1.issued| == |s.issued| + 7
  {
    var plan := InitPlan(cfg, acl.agent, TimestampName(now));
    InitPlanWrites(cfg, acl.agent, TimestampName(now));
    IssueReportsFirstRejection(s, plan);
    IssueSendsUpToFirstRejection(s, plan);
  }

  /** The IRIs a creation stores are pairwise distinct. */
  lemma InitTargetsDistinct(base: string, name: string)
    requires IsTimestampName(name)
    ensures var first := ContainerIri(base, name);
      && base != base + ".acl" && base != first && base != first + ".acl" && base != RootIri(base)
      && base + ".acl" != first && base + ".acl" != first + ".acl" && base + ".acl" != RootIri(base)
      && first != first + ".acl" && first != RootIri(base)
      && first + ".acl" != RootIri(base)
  {
    var first := ContainerIri(base, name);
    EndingsDiffer(base, ".acl", base + name, "/", 1);
    EndingsDiffer(base + name, "/", base, "root.ttl", 1);
    EndingsDiffer(first, ".acl", base, "root.ttl", 2);
  }

  /** The pod after the three creation phases, each run on the pod the previous one left. */
  function AfterPhases(s: Server, cfg: LdesConfig, agent: string, name: string, graph: seq<Triple>): Server {
    var s1 := Issue(s, RootSteps(cfg, agent)).0;
    var s2 := Issue(s1, FirstContainerSteps(cfg, name)).0;
    Issue(s2, ViewSteps(cfg, agent, name, graph)).0
  }

  /** None of the three creation phases met a refusal. */
  predicate PhasesAccepted(s: Server, cfg: LdesConfig, agent: string, name: string, graph: seq<Triple>) {
    var r1 := Issue(s, RootSteps(cfg, agent));
    var r2 := Issue(r1.0, FirstContainerSteps(cfg, name));
    r1.1 == None && r2.1 == None && Issue(r2.0, ViewSteps(cfg, agent, name, graph)).1 == None
  }

  /** A creation that succeeded went through each of its three phases without a refusal. */
  lemma CreatePhases(s: Server, cfg: LdesConfig, acl: AclConfig, now: EpochMillis)
    requires CreateSpec(s, cfg, acl, now).0.Ok?
    ensures var name := TimestampName(now);
      var graph := InitialGraph(cfg.shape, cfg.treePath, name, cfg.base);
      && PhasesAccepted(s, cfg, acl.agent, name, graph)
      && CreateSpec(s, cfg, acl, now).1 == AfterPhases(s, cfg, acl.agent, name, graph)
  {
    var name := TimestampName(now);
    var graph := InitialGraph(cfg.shape, cfg.treePath, name, cfg.base);
    var r1 := Issue(s, RootSteps(cfg, acl.agent));
    IssueAppend(s, RootSteps(cfg, acl.agent), FirstContainerSteps(cfg, name) + ViewSteps(cfg, acl.agent, name, graph));
    IssueAppend(r1.0, FirstContainerSteps(cfg, name), ViewSteps(cfg, acl.agent, name, graph));
  }

  /** The root phase, accepted throughout, makes the root a container with its ACL. */
  lemma RootPhaseEffects(s: Server, cfg: LdesConfig, agent: string)
    requires Issue(s, RootSteps(cfg, agent)).1 == None
    ensures var s1 := Issue(s, RootSteps(cfg, agent)).0;
      && ResourceAt(s1, cfg.base).Some? && ResourceAt(s1, cfg.base).value.Container?
      && ResourceAt(s1, cfg.base + ".acl") == Some(AclDocument(RootAcl(agent)))
  {
    var plan := RootSteps(cfg, agent);
    PhaseAccepted(s, plan);
    IssueLastWriteWins(s, plan, 0, cfg.base);
    IssueLastWriteWins(s, plan, 1, cfg.base + ".acl");
  }

  /** The first-container phase, accepted throughout, creates the container, constrains it and links it as the inbox. */
  lemma FirstPhaseEffects(s: Server, cfg: LdesConfig, name: string)
    requires Issue(s, FirstContainerSteps(cfg, name)).1 == None
    ensures var s1 := Issue(s, FirstContainerSteps(cfg, name)).0;
      var first := ContainerIri(cfg.base, name);
      && ResourceAt(s1, first).Some? && ResourceAt(s1, first).value.Container?
      && LinkOf(s1, first, LDP_CONSTRAINED_BY) == Some(cfg.shape)
      && LinkOf(s1, cfg.base, LDP_INBOX) == Some(first)
  {
    var plan := FirstContainerSteps(cfg, name);
    PhaseAccepted(s, plan);
    IssueLastWriteWins(s, plan, 0, ContainerIri(cfg.base, name));
    IssueLastLinkWins(s, plan, 1);
    IssueLastLinkWins(s, plan, 2);
  }

  /** The view phase, accepted throughout, stores the first container's ACL and `root.ttl`. */
  lemma ViewPhaseEffects(s: Server, cfg: LdesConfig, agent: string, name: string, graph: seq<Triple>)
    requires IsTimestampName(name) && Issue(s, ViewSteps(cfg, agent, name, graph)).1 == None
    ensures var s1 := Issue(s, ViewSteps(cfg, agent, name, graph)).0;
      && ResourceAt(s1, ContainerIri(cfg.base, name) + ".acl") == Some(AclDocument(FirstContainerAcl(agent)))
      && ResourceAt(s1, RootIri(cfg.base)) == Some(Document(graph))
  {
    var plan := ViewSteps(cfg, agent, name, graph);
    PhaseAccepted(s, plan);
    InitTargetsDistinct(cfg.base, name);
    IssueLastWriteWins(s, plan, 0, ContainerIri(cfg.base, name) + ".acl");
    IssueLastWriteWins(s, plan, 1, RootIri(cfg.base));
  }

  /** The first-container phase stores nothing but the first container. */
  lemma FirstPhaseKeeps(s: Server, cfg: LdesConfig, name: string, iri: string)
    requires iri != ContainerIri(cfg.base, name)
    ensures ResourceAt(Issue(s, FirstContainerSteps(cfg, name)).0, iri) == ResourceAt(s, iri)
  {
    IssueKeepsUntouched(s, FirstContainerSteps(cfg, name), iri);
  }

  /** The view phase stores nothing but the first container's ACL and `root.ttl`. */
  lemma ViewPhaseKeeps(s: Server, cfg: LdesConfig, agent: string, name: string, graph: seq<Triple>, iri: string)
    requires iri != ContainerIri(cfg.base, name) + ".acl" && iri != RootIri(cfg.base)
    ensures ResourceAt(Issue(s, ViewSteps(cfg, agent, name, graph)).0, iri) == ResourceAt(s, iri)
  {
    IssueKeepsUntouched(s, ViewSteps(cfg, agent, name, graph), iri);
  }

  /** After the three phases went through, the root is a container. */
  lemma PhasesBuildRoot(s: Server, cfg: LdesConfig, agent: string, name: string, graph: seq<Triple>)
    requires IsTimestampName(name) && PhasesAccepted(s, cfg, agent, name, graph)
    ensures var s' := AfterPhases(s, cfg, agent, name, graph);
      ResourceAt(s', cfg.base).Some? && ResourceAt(s', cfg.base).value.Container?
  {
    InitTargetsDistinct(cfg.base, name);
    var s1 := Issue(s, RootSteps(cfg, agent)).0;
    var s2 := Issue(s1, FirstContainerSteps(cfg, name)).0;
    RootPhaseEffects(s, cfg, agent);
    FirstPhaseKeeps(s1, cfg, name, cfg.base);
    ViewPhaseKeeps(s2, cfg, agent, name, graph, cfg.base);
  }

  /** After the three phases went through, the first container is a container. */
  lemma PhasesBuildFirst(s: Server, cfg: LdesConfig, agent: string, name: string, graph: seq<Triple>)
    requires IsTimestampName(name) && PhasesAccepted(s, cfg, agent, name, graph)
    ensures var s' := AfterPhases(s, cfg, agent, name, graph);
      var first := ContainerIri(cfg.base, name);
      ResourceAt(s', first).Some? && ResourceAt(s', first).value.Container?
  {
    InitTargetsDistinct(cfg.base, name);
    var s1 := Issue(s, RootSteps(cfg, agent)).0;
    var s2 := Issue(s1, FirstContainerSteps(cfg, name)).0;
    FirstPhaseEffects(s1, cfg, name);
    ViewPhaseKeeps(s2, cfg, agent, name, graph, ContainerIri(cfg.base, name));
  }

  /** After the three phases went through, the first container is the root's inbox and is constrained by the shape. */
  lemma PhasesLinkInbox(s: Server, cfg: LdesConfig, agent: string, name: string, graph: seq<Triple>)
    requires PhasesAccepted(s, cfg, agent, name, graph)
    ensures var s' := AfterPhases(s, cfg, agent, name, graph);
      var first := ContainerIri(cfg.base, name);
      && LinkOf(s', first, LDP_CONSTRAINED_BY) == Some(cfg.shape)
      && LinkOf(s', cfg.base, LDP_INBOX) == Some(first)
  {
    var s1 := Issue(s, RootSteps(cfg, agent)).0;
    var s2 := Issue(s1, FirstContainerSteps(cfg, name)).0;
    FirstPhaseEffects(s1, cfg, name);
    IssueKeepsLink(s2, ViewSteps(cfg, agent, name, graph), ContainerIri(cfg.base, name), LDP_CONSTRAINED_BY);
    IssueKeepsLink(s2, ViewSteps(cfg, agent, name, graph), cfg.base, LDP_INBOX);
  }

  /** After the three phases went through, both ACLs and `root.ttl` hold what the phases wrote. */
  lemma PhasesWriteAclsAndView(s: Server, cfg: LdesConfig, agent: string, name: string, graph: seq<Triple>)
    requires IsTimestampName(name) && PhasesAccepted(s, cfg, agent, name, graph)
    ensures var s' := AfterPhases(s, cfg, agent, name, graph);
      && ResourceAt(s', cfg.base + ".acl") == Some(AclDocument(RootAcl(agent)))
      && ResourceAt(s', ContainerIri(cfg.base, name) + ".acl") == Some(AclDocument(FirstContainerAcl(agent)))
      && ResourceAt(s', RootIri(cfg.base)) == Some(Document(graph))
  {
    PhasesWriteRootAcl(s, cfg, agent, name, graph);
    PhasesWriteView(s, cfg, agent, name, graph);
  }

  /** After the three phases went through, the root's ACL is the one the root phase wrote. */
  lemma PhasesWriteRootAcl(s: Server, cfg: LdesConfig, agent: string, name: string, graph: seq<Triple>)
    requires IsTimestampName(name) && PhasesAccepted(s, cfg, agent, name, graph)
    ensures ResourceAt(AfterPhases(s, cfg, agent, name, graph), cfg.base + ".acl") == Some(AclDocument(RootAcl(agent)))
  {
    InitTargetsDistinct(cfg.base, name);
    var s1 := Issue(s, RootSteps(cfg, agent)).0;
    var s2 := Issue(s1, FirstContainerSteps(cfg, name)).0;
    RootPhaseEffects(s, cfg, agent);
    FirstPhaseKeeps(s1, cfg, name, cfg.base + ".acl");
    ViewPhaseKeeps(s2, cfg, agent, name, graph, cfg.base + ".acl");
  }

  /** After the three phases went through, the first container's ACL and `root.ttl` are the ones the view phase wrote. */
  lemma PhasesWriteView(s: Server, cfg: LdesConfig, agent: string, name: string, graph: seq<Triple>)
    requires IsTimestampName(name) && PhasesAccepted(s, cfg, agent, name, graph)
    ensures var s' := AfterPhases(s, cfg, agent, name, graph);
      && ResourceAt(s', ContainerIri(cfg.base, name) + ".acl") == Some(AclDocument(FirstContainerAcl(agent)))
      && ResourceAt(s', RootIri(cfg.base)) == Some(Document(graph))
  {
    var s1 := Issue(s, RootSteps(cfg, agent)).0;
    var s2 := Issue(s1, FirstContainerSteps(cfg, name)).0;
    ViewPhaseEffects(s2, cfg, agent, name, graph);
  }

  /** After a creation that succeeded, the root and the first container are containers. */
  lemma CreateBuildsContainers(s: Server, cfg: LdesConfig, acl: AclConfig, now: EpochMillis)
    requires CreateSpec(s, cfg, acl, now).0.Ok?
    ensures var s' := CreateSpec(s, cfg, acl, now).1;
      var first := ContainerIri(cfg.base, TimestampName(now));
      && ResourceAt(s', cfg.base).Some? && ResourceAt(s', cfg.base).value.Container?
      && ResourceAt(s', first).Some? && ResourceAt(s', first).value.Container?
  {
    var name := TimestampName(now);
    CreatePhases(s, cfg, acl, now);
    var graph := InitialGraph(cfg.shape, cfg.treePath, name, cfg.base);
    PhasesBuildRoot(s, cfg, acl.agent, name, graph);
    PhasesBuildFirst(s, cfg, acl.agent, name, graph);
  }

  /** After a creation that succeeded, the first container is the root's inbox and is constrained by the shape. */
  lemma CreateLinksInbox(s: Server, cfg: LdesConfig, acl: AclConfig, now: EpochMillis)
    requires CreateSpec(s, cfg, acl, now).0.Ok?
    ensures var s' := CreateSpec(s, cfg, acl, now).1;
      var first := ContainerIri(cfg.base, TimestampName(now));
      && LinkOf(s', first, LDP_CONSTRAINED_BY) == Some(cfg.shape)
      && LinkOf(s', cfg.base, LDP_INBOX) == Some(first)
  {
    var name := TimestampName(now);
    CreatePhases(s, cfg, acl, now);
    PhasesLinkInbox(s, cfg, acl.agent, name, InitialGraph(cfg.shape, cfg.treePath, name, cfg.base));
  }

  /**
   * After a creation that succeeded: the root's ACL gives the agent control
   * and everyone read, the first container's gives the agent control and
   * everyone read and append, and `root.ttl` holds the new EventStream.
   */
  lemma CreateWritesAclsAndView(s: Server, cfg: LdesConfig, acl: AclConfig, now: EpochMillis)
    requires CreateSpec(s, cfg, acl, now).0.Ok?
    ensures var s' := CreateSpec(s, cfg, acl, now).1;
      var first := ContainerIri(cfg.base, TimestampName(now));
      && ResourceAt(s', cfg.base + ".acl") == Some(AclDocument(RootAcl(acl.agent)))
      && ResourceAt(s', first + ".acl") == Some(AclDocument(FirstContainerAcl(acl.agent)))
      && ResourceAt(s', RootIri(cfg.base)) == Some(Document(InitialGraph(cfg.shape, cfg.treePath, TimestampName(now), cfg.base)))
  {
    var name := TimestampName(now);
    CreatePhases(s, cfg, acl, now);
    PhasesWriteAclsAndView(s, cfg, acl.agent, name, InitialGraph(cfg.shape, cfg.treePath, name, cfg.base));
  }

  /** The root's ACL names exactly one agent, the configured one, unless that is empty. */
  lemma RootAclAgents(agent: string)
    ensures Match(AclGraph(RootAcl(agent)), None, Some(Iri(ACL_AGENT)), None)
      == if agent != "" then [Triple(Iri("orchestrator"), Iri(ACL_AGENT), Iri(agent))] else []
  {
    var acls := RootAcl(agent);
    var p := Some(Iri(ACL_AGENT));
    assert acls[1..][1..] == [];
    assert AclGraph(acls[1..]) == AuthorizationTriples(acls[1]) + [];
    assert AclGraph(acls) == AuthorizationTriples(acls[0]) + (AuthorizationTriples(acls[1]) + []);
    AuthorizationAgent(acls[0]);
    AuthorizationAgent(acls[1]);
    MatchAppend(AuthorizationTriples(acls[0]), AuthorizationTriples(acls[1]) + [], None, p, None);
    MatchAppend(AuthorizationTriples(acls[1]), [], None, p, None);
  }

  /**
   * `getConfig` reads back what `createLDESinLDP` wrote: after a creation
   * that succeeded, and when the pod answers both reads with 200, it yields
   * the log's configuration and ACL configuration, except that the relation
   * type is the GreaterThanOrEqualTo one the creation always writes; with an
   * empty agent the ACL names no agent and the lookup fails.
   */
  lemma CreateThenGetConfig(s: Server, cfg: LdesConfig, acl: AclConfig, now: EpochMillis)
    requires CreateSpec(s, cfg, acl, now).0.Ok?
    requires AnswerAt(s.responses, |s.issued| + 7) == 200 && AnswerAt(s.responses, |s.issued| + 8) == 200
    ensures GetConfigSpec(CreateSpec(s, cfg, acl, now).1, cfg.base).0
      == if acl.agent != "" then Ok((cfg.(relationType := TREE_GREATER_THAN_OR_EQUAL), acl)) else Err(MissingTriple(ACL_AGENT))
  {
    var name := TimestampName(now);
    CreateThenReadGraphs(s, cfg, acl, now);
    InitialGraphDescribesCollection(cfg.shape, cfg.treePath, name, cfg.base);
    InitialGraphHasOneRelation(cfg.shape, cfg.treePath, name, cfg.base);
    RootAclAgents(acl.agent);
  }

  /** After a successful creation the configuration getter reads back the initial root graph and the root's ACL graph. */
  lemma CreateThenReadGraphs(s: Server, cfg: LdesConfig, acl: AclConfig, now: EpochMillis)
    requires CreateSpec(s, cfg, acl, now).0.Ok?
    requires AnswerAt(s.responses, |s.issued| + 7) == 200 && AnswerAt(s.responses, |s.issued| + 8) == 200
    ensures GetConfigSpec(CreateSpec(s, cfg, acl, now).1, cfg.base).0
      == ConfigFromGraphs(cfg.base, InitialGraph(cfg.shape, cfg.treePath, TimestampName(now), cfg.base), AclGraph(RootAcl(acl.agent)))
  {
    var s' := CreateSpec(s, cfg, acl, now).1;
    CreateAccepted(s, cfg, acl, now);
    IssueExtendsLog(s, InitPlan(cfg, acl.agent, TimestampName(now)));
    CreateWritesAclsAndView(s, cfg, acl, now);
    FetchReadsResource(s', RootIri(cfg.base));
    var s1 := FetchSpec(s', RootIri(cfg.base)).1;
    FetchReadsResource(s1, cfg.base + ".acl");
  }

}
