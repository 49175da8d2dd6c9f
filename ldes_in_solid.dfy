// The version-1 handle on a log stored in a Solid pod (src/LDESinSolid.ts):
// the log's root container, its container threshold, the shape discovered
// from the current inbox, and the single requests the orchestrator combines
// into a rotation.
module LdesInSolid {
  import opened Results
  import opened Rdf
  import opened Numbers
  import opened Vocabulary
  import opened Acl
  import opened Pod
  import opened Reads
  import opened EventStream

  /**
   * `getShape`: finds the current inbox, sends it a HEAD, and takes the
   * target of its `ldp:constrainedBy` Link header.
   */
  function ShapeSpec(s: Server, root: string): (Result<string>, Server) {
    var (inbox, s1) := CurrentContainerSpec(s, root);
    if inbox.Err? then (Err(inbox.error), s1)
    else
      var (resp, s2) := Respond(s1, Head(inbox.value));
      if resp.links.None? then (Err(NoLinkHeader(inbox.value)), s2)
      else if LDP_CONSTRAINED_BY !in resp.links.value then (Err(NoConstrainedByLink), s2)
      else (Ok(resp.links.value[LDP_CONSTRAINED_BY]), s2)
  }

  /**
   * The shape `getShape` finds is the `ldp:constrainedBy` link of the
   * container the root's `ldp:inbox` link points to; finding it sends two
   * HEADs and changes nothing on the pod.
   */
  lemma ShapeIsInboxConstraint(s: Server, root: string)
    ensures var (r, s2) := ShapeSpec(s, root);
      && (r.Ok? <==> InboxOf(s, root).Some? && LinkOf(s, InboxOf(s, root).value, LDP_CONSTRAINED_BY).Some?)
      && (r.Ok? ==> r.value == LinkOf(s, InboxOf(s, root).value, LDP_CONSTRAINED_BY).value)
      && s2.resources == s.resources && s2.links == s.links
      && |s2.issued| == |s.issued| + (if InboxOf(s, root).Some? then 2 else 1)
  {
    CurrentContainerIsInboxLink(s, root);
  }

  /**
   * `addRelation(name)`: fetches `root.ttl`, takes the object of its first
   * `tree:path` triple, adds a greater-than-or-equal relation to the
   * container `name` on a fresh blank node, and PUTs the whole graph back.
   */
  function AddRelationSpec(s: Server, root: string, name: string): (Result<Response>, Server)
    requires IsTimestampName(name)
  {
    var (fetched, s1) := FetchSpec(s, RootIri(root));
    if fetched.Err? then (Err(fetched.error), s1)
    else
      var g := fetched.value;
      var paths := Match(g, None, Some(Iri(TREE_PATH)), None);
      if paths == [] then (Err(NoTreePath), s1)
      else
        var (resp, s2) := Respond(s1, PutGraph(RootIri(root), ExtendedRoot(g, root, name)));
        (Ok(resp), s2)
  }

  /** The graph `addRelation` PUTs back when `root.ttl` held `g`. */
  function ExtendedRoot(g: seq<Triple>, root: string, name: string): seq<Triple>
    requires IsTimestampName(name) && Match(g, None, Some(Iri(TREE_PATH)), None) != []
  {
    g + RelationTriples(NextRelationNode(g, 0), root, name, Match(g, None, Some(Iri(TREE_PATH)), None)[0].o,
                        TREE_GREATER_THAN_OR_EQUAL, IsoDateTime(TimestampOf(name)))
  }

  /**
   * When `root.ttl` is a document with a `tree:path` and the pod accepts the
   * GET and the PUT, `addRelation` sends exactly those two requests and
   * replaces `root.ttl` by the extended graph; nothing else on the pod changes.
   */
  lemma AddRelationWritesOnlyRoot(s: Server, root: string, name: string)
    requires IsTimestampName(name)
    requires RootIri(root) in s.resources && s.resources[RootIri(root)].Document?
    requires Match(s.resources[RootIri(root)].graph, None, Some(Iri(TREE_PATH)), None) != []
    requires AnswerAt(s.responses, |s.issued|) == 200 && Success(AnswerAt(s.responses, |s.issued| + 1))
    ensures var g' := ExtendedRoot(s.resources[RootIri(root)].graph, root, name);
      var (r, s2) := AddRelationSpec(s, root, name);
      && r.Ok? && r.value.status == AnswerAt(s.responses, |s.issued| + 1)
      && s2.resources == s.resources[RootIri(root) := Document(g')]
      && s2.links == s.links
      && s2.issued == s.issued + [Get(RootIri(root)), PutGraph(RootIri(root), g')]
  {
    var g := s.resources[RootIri(root)].graph;
    FetchReadsResource(s, RootIri(root));
    var s1 := s.(issued := s.issued + [Get(RootIri(root))]);
    assert FetchSpec(s, RootIri(root)) == (Ok(g), s1);
    var g' := ExtendedRoot(g, root, name);
    var put := PutGraph(RootIri(root), g');
    assert StatusOf(s1, put) == AnswerAt(s.responses, |s.issued| + 1);
    PutGraphStores(s1, RootIri(root), g');
    assert AddRelationSpec(s, root, name) == (Ok(Respond(s1, put).0), Respond(s1, put).1);
  }

  /**
   * The extended graph holds the old graph plus exactly one more relation
   * from the root Node, on a blank node the old graph does not use.
   */
  lemma ExtendedRootHasOneMoreRelation(g: seq<Triple>, root: string, name: string)
    requires IsTimestampName(name) && Match(g, None, Some(Iri(TREE_PATH)), None) != []
    ensures var rel := NextRelationNode(g, 0);
      && !Uses(g, rel)
      && Match(ExtendedRoot(g, root, name), Some(Iri(RootIri(root))), Some(Iri(TREE_RELATION)), None)
         == Match(g, Some(Iri(RootIri(root))), Some(Iri(TREE_RELATION)), None) + [Triple(Iri(RootIri(root)), Iri(TREE_RELATION), rel)]
  {
    var path := Match(g, None, Some(Iri(TREE_PATH)), None)[0].o;
    AddedRelationHangsOffRoot(g, NextRelationNode(g, 0), root, name, path, TREE_GREATER_THAN_OR_EQUAL, IsoDateTime(TimestampOf(name)));
  }

  /**
   * The extended graph's `tree:node` targets are the old graph's followed by
   * the new container, so its relations point at pairwise distinct
   * containers exactly when the old graph's did and did not yet point at
   * the new one.
   */
  lemma ExtendedRootNodeTargets(g: seq<Triple>, root: string, name: string)
    requires IsTimestampName(name) && Match(g, None, Some(Iri(TREE_PATH)), None) != []
    ensures NodeTargets(ExtendedRoot(g, root, name)) == NodeTargets(g) + [Iri(ContainerIri(root, name))]
    ensures DistinctNodes(ExtendedRoot(g, root, name)) <==> DistinctNodes(g) && Iri(ContainerIri(root, name)) !in NodeTargets(g)
  {
    var path := Match(g, None, Some(Iri(TREE_PATH)), None)[0].o;
    var dateTime := IsoDateTime(TimestampOf(name));
    AddedRelationNodeTargets(g, NextRelationNode(g, 0), root, name, path, TREE_GREATER_THAN_OR_EQUAL, dateTime);
    AddedRelationKeepsNodesDistinct(g, NextRelationNode(g, 0), root, name, path, TREE_GREATER_THAN_OR_EQUAL, dateTime);
  }

  /** The version-1 handle: a root container, a threshold, and the shape once `init` found it. */
  class LdesInSolid {
    const session: Remote
    const root: string
    const containerAmount: int
    var shapeIri: Option<string>

    /** `amount` defaults to 100 when it is omitted or 0. */
    constructor (session: Remote, root: string, amount: Option<int>)
      ensures this.session == session && this.root == root
      ensures containerAmount == ThresholdOf(amount) && shapeIri == None
    {
      this.session := session;
      this.root := root;
      if amount.Some? && amount.value != 0 {
        containerAmount := amount.value;
      } else {
        containerAmount := 100;
      }
      shapeIri := None;
    }

    /** The `shapeIRI` getter: fails with "You should have initialised." until a non-empty shape was found. */
    function ShapeIri(): (r: Result<string>)
      reads this
      ensures r.Ok? <==> shapeIri.Some? && shapeIri.value != ""
      ensures r.Ok? ==> shapeIri == Some(r.value)
      ensures r.Err? ==> r.error == NotInitialised
    {
      if shapeIri.Some? && shapeIri.value != "" then Ok(shapeIri.value) else Err(NotInitialised)
    }

    /** `init` / `getShape`: stores the shape of the current inbox; on failure the field keeps its value. */
    method Init() returns (r: Result<()>)
      modifies this, session
      ensures var (shape, s') := ShapeSpec(old(session.server), root);
        && session.server == s'
        && (r.Ok? <==> shape.Ok?) && (shape.Err? ==> r == Err(shape.error))
        && shapeIri == (if shape.Ok? then Some(shape.value) else old(shapeIri))
    {
      var inbox := GetCurrentContainer();
      if inbox.Err? {
        return Err(inbox.error);
      }
      var resp := session.Send(Head(inbox.value));
      if resp.links.None? {
        return Err(NoLinkHeader(inbox.value));
      }
      if LDP_CONSTRAINED_BY !in resp.links.value {
        return Err(NoConstrainedByLink);
      }
      shapeIri := Some(resp.links.value[LDP_CONSTRAINED_BY]);
      r := Ok(());
    }

    /** `getCurrentContainer`. */
    method GetCurrentContainer() returns (r: Result<string>)
      modifies session
      ensures (r, session.server) == CurrentContainerSpec(old(session.server), root)
    {
      var resp := session.Send(Head(root));
      if resp.links.None? {
        return Err(NoLinkHeader(root));
      }
      if LDP_INBOX !in resp.links.value {
        return Err(NoInboxLink);
      }
      r := Ok(resp.links.value[LDP_INBOX]);
    }

    /** `fetchStore(iri)`: a fresh store holding the fetched triples, or a failure unless the status is 200. */
    method FetchStore(iri: string) returns (r: Result<Store>)
      modifies session
      ensures var (f, s') := FetchSpec(old(session.server), iri);
        && session.server == s' && r.Ok? == f.Ok?
        && (r.Ok? ==> fresh(r.value) && r.value.triples == f.value && r.value.blankIndex == 0)
        && (r.Err? ==> r.error == f.error)
    {
      var resp := session.Send(Get(iri));
      if resp.status != 200 {
        return Err(FetchFailed(iri));
      }
      var store := new Store(resp.body);
      r := Ok(store);
    }

    /** `getAmountResources`. */
    method GetAmountResources() returns (r: Result<nat>)
      modifies session
      ensures (r, session.server) == AmountSpec(old(session.server), root)
    {
      var inbox := GetCurrentContainer();
      if inbox.Err? {
        return Err(inbox.error);
      }
      var store := FetchStore(inbox.value);
      if store.Err? {
        return Err(store.error);
      }
      var resources := store.value.GetQuads(Some(Iri(inbox.value)), Some(Iri(LDP_CONTAINS)), None);
      r := Ok(|resources|);
    }

    /** `createContainer(name)`: PUTs the container `root + name + "/"`; the status is returned unchecked. */
    method CreateContainer(name: string) returns (resp: Response)
      modifies session
      ensures (resp, session.server) == Respond(old(session.server), PutContainer(ContainerIri(root, name)))
    {
      resp := session.Send(PutContainer(root + name + "/"));
    }

    /**
     * `addShape(name)`: sets the container's `ldp:constrainedBy` link to the
     * shape. The shape getter runs first, so without a shape nothing is sent.
     */
    method AddShape(name: string) returns (r: Result<Response>)
      modifies session
      ensures ShapeIri().Err? ==> r == Err(NotInitialised) && session.server == old(session.server)
      ensures ShapeIri().Ok? ==>
        var (resp, s') := Respond(old(session.server), PutLink(ContainerIri(root, name), LDP_CONSTRAINED_BY, ShapeIri().value));
        r == Ok(resp) && session.server == s'
    {
      var shape := ShapeIri();
      if shape.Err? {
        return Err(shape.error);
      }
      var resp := session.Send(PutLink(root + name + "/", LDP_CONSTRAINED_BY, shape.value));
      r := Ok(resp);
    }

    /** `updateAcl(aclIri, body)`: PUTs the authorizations; the status is returned unchecked. */
    method UpdateAcl(aclIri: string, body: seq<Acl>) returns (resp: Response)
      modifies session
      ensures (resp, session.server) == Respond(old(session.server), PutAcl(aclIri, body))
    {
      resp := session.Send(PutAcl(aclIri, body));
    }

    /** `updateInbox(name)`: sets the root's `ldp:inbox` link to the container `root + name + "/"`. */
    method UpdateInbox(name: string) returns (resp: Response)
      modifies session
      ensures (resp, session.server) == Respond(old(session.server), PutLink(root, LDP_INBOX, ContainerIri(root, name)))
    {
      resp := session.Send(PutLink(root, LDP_INBOX, root + name + "/"));
    }

    /** `addRelation(name)`: read-modify-write of `root.ttl`. */
    method AddRelation(name: string) returns (r: Result<Response>)
      requires IsTimestampName(name)
      modifies session
      ensures (r, session.server) == AddRelationSpec(old(session.server), root, name)
    {
      var rootIri := root + "root.ttl";
      var fetched := FetchStore(rootIri);
      if fetched.Err? {
        return Err(fetched.error);
      }
      var store := fetched.value;
      ghost var g := store.triples;
      var relationNode := store.CreateBlankNode();
      var treePaths := store.GetQuads(None, Some(Iri(TREE_PATH)), None);
      if |treePaths| == 0 {
        return Err(NoTreePath);
      }
      var treePath := treePaths[0].o;
      var dateTime := IsoDateTime(TimestampOf(name));
      var added := RelationTriples(relationNode, root, name, treePath, TREE_GREATER_THAN_OR_EQUAL, dateTime);
      RelationTriplesAreNew(store.triples, relationNode, root, name, treePath, TREE_GREATER_THAN_OR_EQUAL, dateTime);
      AddQuads(store, added);
      var resp := session.Send(PutGraph(rootIri, store.triples));
      r := Ok(resp);
    }
  }
}
