// The rotation of a log's inbox (src/Orchestrator.ts), run against the
// version-1 handle: when the current inbox holds at least the threshold's
// number of members, a new container is created, given the shape, made the
// inbox, the old inbox is made read-only, the new one read-append, and the
// root Node gains a relation to it. Each write must answer one fixed status;
// the first that does not stops the rotation, and nothing is undone.
module Orchestrator {
  import opened Results
  import opened Rdf
  import opened Numbers
  import opened Vocabulary
  import opened Acl
  import opened Pod
  import opened Plan
  import opened Reads
  import opened EventStream
  import V1 = LdesInSolid

  /** How a run of `execute` that did not fail ended. */
  datatype Execution =
    | BelowThreshold(amount: nat)
    | Rotated(container: string)

  /** The authorization of the orchestrator's own agent, a WebID fixed in the code whatever the log's owner. */
  function OrchestratorAcl(): (a: Acl)
    ensures a.id == "orchestrator" && a.mode == [Uri(ACL_READ), Uri(ACL_WRITE), Uri(ACL_CONTROL)]
    ensures a.agent == Some(Uri(ORCHESTRATOR_WEB_ID)) && a.agentClass == None
  {
    AclBody("orchestrator", [ACL_READ, ACL_WRITE, ACL_CONTROL], Some(ORCHESTRATOR_WEB_ID))
  }

  /** Everyone may read. */
  function ReadOnlyAcl(): (a: Acl)
    ensures a.mode == [Uri(ACL_READ)] && a.agent == None && a.agentClass == Some(Uri(FOAF_AGENT))
  {
    AclBody("#authorization", [ACL_READ], None)
  }

  /** Everyone may read and append. */
  function ReadAppendAcl(): (a: Acl)
    ensures a.mode == [Uri(ACL_READ), Uri(ACL_APPEND)] && a.agent == None && a.agentClass == Some(Uri(FOAF_AGENT))
  {
    AclBody("#authorization", [ACL_READ, ACL_APPEND], None)
  }

  /** The first write of a rotation: the new container, which must answer 201. */
  function CreateStep(root: string, name: string): Step {
    Step(PutContainer(ContainerIri(root, name)), {201})
  }

  /**
   * The five writes of a rotation before the relation is added, each with
   * the one status it must answer: create the container (201), give it the
   * shape (205), make it the inbox (205), make the old inbox read-only
   * (205), and make the new container readable and appendable (201).
   */
  function RotationPlan(root: string, name: string, shape: string, oldContainer: string): seq<Step> {
    var c := ContainerIri(root, name);
    [ CreateStep(root, name),
      Step(PutLink(c, LDP_CONSTRAINED_BY, shape), {205}),
      Step(PutLink(root, LDP_INBOX, c), {205}),
      Step(PutAcl(oldContainer + ".acl", [ReadOnlyAcl(), OrchestratorAcl()]), {205}),
      Step(PutAcl(c + ".acl", [ReadAppendAcl(), OrchestratorAcl()]), {201}) ]
  }

  /** The error a refused rotation step throws. */
  function RotationError(failure: (Request, int)): Error {
    if failure.0.PutContainer? then NotCreated(failure.0.target, failure.1)
    else Rejected(failure.0.target, failure.1)
  }

  /** The writes a rotation sends before the relation: without a shape only the creation, before the shape getter throws. */
  function RotationSteps(root: string, name: string, shape: Result<string>, oldContainer: string): seq<Step> {
    if shape.Err? then [CreateStep(root, name)] else RotationPlan(root, name, shape.value, oldContainer)
  }

  /** The last step of a rotation: the relation to the new container, which must answer 205. */
  function RelationSpec(s: Server, root: string, name: string): (Result<Execution>, Server)
    requires IsTimestampName(name)
  {
    var (relation, s1) := V1.AddRelationSpec(s, root, name);
    if relation.Err? then (Err(relation.error), s1)
    else if relation.value.status != 205 then (Err(Rejected(RootIri(root), relation.value.status)), s1)
    else (Ok(Rotated(ContainerIri(root, name))), s1)
  }

  /**
   * The rotation part of `execute`, once the count reached the threshold:
   * the plan's writes, then, when all were accepted, the relation.
   */
  function RotateSpec(s: Server, root: string, shape: Result<string>, name: string, oldContainer: string)
    : (Result<Execution>, Server)
    requires IsTimestampName(name)
  {
    var (s1, failure) := Issue(s, RotationSteps(root, name, shape, oldContainer));
    if failure.Some? then (Err(RotationError(failure.value)), s1)
    else if shape.Err? then (Err(shape.error), s1)
    else RelationSpec(s1, root, name)
  }

  /**
   * `execute`: counts the inbox's members, reads the inbox again, and stops
   * when the count is below the threshold; otherwise names the new container
   * after the clock reading `now` and rotates.
   */
  function ExecuteSpec(s: Server, root: string, threshold: int, shape: Result<string>, now: EpochMillis)
    : (Result<Execution>, Server)
  {
    var (amount, s1) := AmountSpec(s, root);
    if amount.Err? then (Err(amount.error), s1)
    else
      var (oldContainer, s2) := CurrentContainerSpec(s1, root);
      if oldContainer.Err? then (Err(oldContainer.error), s2)
      else if amount.value < threshold then (Ok(BelowThreshold(amount.value)), s2)
      else
        DecimalStringIsTimestampName(now);
        RotateSpec(s2, root, shape, DecimalString(now), oldContainer.value)
  }

  /** The three reads `execute` starts with: HEAD of the root, GET of the inbox, HEAD of the root again. */
  function ReadRequests(root: string, inbox: string): seq<Request> {
    [Head(root), Get(inbox), Head(root)]
  }

  /** The reads succeed and the inbox holds at least `threshold` members. */
  predicate RotationDue(s: Server, root: string, threshold: int) {
    var amount := AmountSpec(s, root).0;
    amount.Ok? && amount.value >= threshold
  }

  /** Some request from position `from` of the log on is a write. */
  predicate SentWrite(log: seq<Request>, from: nat) {
    exists i :: from <= i < |log| && Writes(log[i])
  }

  /**
   * When the count succeeds, both reads see the root's inbox link, and
   * after them the pod is unchanged apart from the three logged reads.
   */
  lemma ReadsSeeInbox(s: Server, root: string)
    requires AmountSpec(s, root).0.Ok?
    ensures InboxOf(s, root).Some?
    ensures var s1 := AmountSpec(s, root).1;
      var (oldContainer, s2) := CurrentContainerSpec(s1, root);
      && oldContainer == Ok(InboxOf(s, root).value)
      && s2 == s.(issued := s.issued + ReadRequests(root, InboxOf(s, root).value))
  {
    CurrentContainerIsInboxLink(s, root);
    var inbox := InboxOf(s, root).value;
    var s1 := AmountSpec(s, root).1;
    FetchReadsResource(s.(issued := s.issued + [Head(root)]), inbox);
    assert s1 == s.(issued := s.issued + [Head(root), Get(inbox)]);
    CurrentContainerIsInboxLink(s1, root);
  }

  /** The relation step only appends to the request log. */
  lemma RelationExtendsLog(s: Server, root: string, name: string)
    requires IsTimestampName(name)
    ensures var s2 := RelationSpec(s, root, name).1;
      |s2.issued| >= |s.issued| + 1 && s2.issued[..|s.issued|] == s.issued
  {
  }

  /** A rotation always sends the new container's creation first and only appends to the log. */
  lemma RotationStartsWithCreate(s: Server, root: string, shape: Result<string>, name: string, oldContainer: string)
    requires IsTimestampName(name)
    ensures var s' := RotateSpec(s, root, shape, name, oldContainer).1;
      && |s'.issued| > |s.issued| && s'.issued[..|s.issued|] == s.issued
      && s'.issued[|s.issued|] == PutContainer(ContainerIri(root, name))
  {
    var plan := RotationSteps(root, name, shape, oldContainer);
    IssueExtendsLog(s, plan);
    var (s1, failure) := Issue(s, plan);
    if shape.Ok? && failure.None? {
      RelationExtendsLog(s1, root, name);
      var s2 := RelationSpec(s1, root, name).1;
      assert s2.issued[..|s1.issued|] == s1.issued;
      assert s2.issued[..|s.issued|] == s1.issued[..|s.issued|];
    }
  }

  /** Every step of a rotation is a write that takes effect when accepted. */
  lemma RotationStepsWrite(root: string, name: string, shape: Result<string>, oldContainer: string)
    ensures NoReads(RotationSteps(root, name, shape, oldContainer))
    ensures AcceptsOnlySuccess(RotationSteps(root, name, shape, oldContainer))
  {
  }

  /**
   * A rotation whose every step is accepted has sent them all in order;
   * without a shape it then fails with the shape getter's error and sends
   * nothing more.
   */
  lemma RotateSendsWholePlan(s: Server, root: string, shape: Result<string>, name: string, oldContainer: string)
    requires IsTimestampName(name)
    ensures var plan := RotationSteps(root, name, shape, oldContainer);
      var (r, s') := RotateSpec(s, root, shape, name, oldContainer);
      FirstRejected(s.responses, |s.issued|, plan) == |plan| ==>
        && |s'.issued| >= |s.issued| + |plan| && s'.issued[..|s.issued| + |plan|] == s.issued + Requests(plan)
        && (shape.Err? ==> s'.issued == s.issued + Requests(plan) && r == Err(shape.error))
  {
    var plan := RotationSteps(root, name, shape, oldContainer);
    if FirstRejected(s.responses, |s.issued|, plan) == |plan| {
      RotationStepsWrite(root, name, shape, oldContainer);
      IssueSendsUpToFirstRejection(s, plan);
      IssueReportsFirstRejection(s, plan);
      var (s1, failure) := Issue(s, plan);
      assert failure.None? && s1.issued == s.issued + Requests(plan);
      if shape.Ok? {
        RelationExtendsLog(s1, root, name);
        var s2 := RelationSpec(s1, root, name).1;
        assert s2.issued[..|s1.issued|] == s1.issued;
      }
    }
  }

  /**
   * The outcome `e` of a rotation whose steps `plan` are answered from
   * position `start` of `responses` on, after the log `log`: when a step is
   * refused, the log is `log` followed by the steps up to and including that
   * one, and the rotation failed with that step's error.
   */
  predicate StopsAtRefusal(e: (Result<Execution>, Server), log: seq<Request>, responses: seq<int>, start: nat, plan: seq<Step>) {
    var n := FirstRejected(responses, start, plan);
    n < |plan| ==>
      && e.1.issued == log + Requests(plan)[..n + 1]
      && e.0 == Err(RotationError((plan[n].request, AnswerAt(responses, start + n))))
  }

  /** A rotation in which a step is refused stops there with that step's error. */
  lemma RotateRefused(s: Server, root: string, shape: Result<string>, name: string, oldContainer: string)
    requires IsTimestampName(name)
    ensures StopsAtRefusal(RotateSpec(s, root, shape, name, oldContainer), s.issued, s.responses, |s.issued|,
                           RotationSteps(root, name, shape, oldContainer))
  {
    var plan := RotationSteps(root, name, shape, oldContainer);
    var n := FirstRejected(s.responses, |s.issued|, plan);
    if n < |plan| {
      RotationStepsWrite(root, name, shape, oldContainer);
      IssueSendsUpToFirstRejection(s, plan);
      IssueReportsFirstRejection(s, plan);
      var (s1, failure) := Issue(s, plan);
      assert failure == Some((plan[n].request, AnswerAt(s.responses, |s.issued| + n)));
      assert RotateSpec(s, root, shape, name, oldContainer) == (Err(RotationError(failure.value)), s1);
    }
  }

  /** The error each refused rotation step throws, step by step. */
  lemma RotationErrors(root: string, name: string, shape: string, oldContainer: string, status: int)
    ensures var plan := RotationPlan(root, name, shape, oldContainer);
      var c := ContainerIri(root, name);
      && RotationError((plan[0].request, status)) == NotCreated(c, status)
      && RotationError((plan[1].request, status)) == Rejected(c, status)
      && RotationError((plan[2].request, status)) == Rejected(root, status)
      && RotationError((plan[3].request, status)) == Rejected(oldContainer + ".acl", status)
      && RotationError((plan[4].request, status)) == Rejected(c + ".acl", status)
  {
  }

  /**
   * Once the count is due, `execute` is the rotation run on the pod as the
   * three reads left it, naming the new container after the clock reading.
   */
  lemma DueExecuteRotates(s: Server, root: string, threshold: int, shape: Result<string>, now: EpochMillis)
    requires RotationDue(s, root, threshold)
    ensures InboxOf(s, root).Some? && IsTimestampName(DecimalString(now))
    ensures var inbox := InboxOf(s, root).value;
      ExecuteSpec(s, root, threshold, shape, now)
        == RotateSpec(s.(issued := s.issued + ReadRequests(root, inbox)), root, shape, DecimalString(now), inbox)
  {
    ReadsSeeInbox(s, root);
    DecimalStringIsTimestampName(now);
  }

  /**
   * Once the count is due and a rotation step is refused, `execute` has sent
   * the three reads and the rotation's steps up to and including that one,
   * and fails with that step's error. The read-only ACL targets the inbox
   * read before any write.
   */
  lemma ExecuteStopsAtFirstRefusal(s: Server, root: string, threshold: int, shape: Result<string>, now: EpochMillis)
    requires RotationDue(s, root, threshold) && InboxOf(s, root).Some?
    ensures var inbox := InboxOf(s, root).value;
      StopsAtRefusal(ExecuteSpec(s, root, threshold, shape, now), s.issued + ReadRequests(root, inbox),
                     s.responses, |s.issued| + 3, RotationSteps(root, DecimalString(now), shape, inbox))
  {
    DueExecuteRotates(s, root, threshold, shape, now);
    var inbox := InboxOf(s, root).value;
    var s2 := s.(issued := s.issued + ReadRequests(root, inbox));
    RotateRefused(s2, root, shape, DecimalString(now), inbox);
    assert s2.issued == s.issued + ReadRequests(root, inbox) && s2.responses == s.responses;
    assert |s2.issued| == |s.issued| + 3;
  }

  /**
   * Once the count is due and every rotation step is accepted, `execute`
   * has sent the three reads and then all the rotation's steps in order.
   */
  lemma ExecuteSendsWholePlan(s: Server, root: string, threshold: int, shape: Result<string>, now: EpochMillis)
    requires RotationDue(s, root, threshold) && InboxOf(s, root).Some?
    ensures var inbox := InboxOf(s, root).value;
      var plan := RotationSteps(root, DecimalString(now), shape, inbox);
      var start := |s.issued| + 3;
      var s' := ExecuteSpec(s, root, threshold, shape, now).1;
      FirstRejected(s.responses, start, plan) == |plan| ==>
        |s'.issued| >= start + |plan| && s'.issued[..start + |plan|] == s.issued + ReadRequests(root, inbox) + Requests(plan)
  {
    DueExecuteRotates(s, root, threshold, shape, now);
    var inbox := InboxOf(s, root).value;
    var s2 := s.(issued := s.issued + ReadRequests(root, inbox));
    RotateSendsWholePlan(s2, root, shape, DecimalString(now), inbox);
  }

  /**
   * When the reads fail or the count is below the threshold, `execute`
   * sends at most the three reads, writes nothing, changes nothing on the
   * pod and, when the reads succeeded, reports the count.
   */
  lemma NotDueOnlyReads(s: Server, root: string, threshold: int, shape: Result<string>, now: EpochMillis)
    requires !RotationDue(s, root, threshold)
    ensures var (r, s') := ExecuteSpec(s, root, threshold, shape, now);
      && s'.resources == s.resources && s'.links == s.links
      && |s.issued| <= |s'.issued| <= |s.issued| + 3 && s'.issued[..|s.issued|] == s.issued
      && !SentWrite(s'.issued, |s.issued|)
      && (r.Ok? ==> r.value == BelowThreshold(AmountSpec(s, root).0.value))
  {
    var s' := ExecuteSpec(s, root, threshold, shape, now).1;
    CurrentContainerIsInboxLink(s, root);
    if AmountSpec(s, root).0.Err? {
      if InboxOf(s, root).Some? {
        FetchReadsResource(s.(issued := s.issued + [Head(root)]), InboxOf(s, root).value);
      }
    } else {
      ReadsSeeInbox(s, root);
    }
  }

  /** Once the count is due, the first request after the three reads creates the container named after the clock reading. */
  lemma DueCreatesFirst(s: Server, root: string, threshold: int, shape: Result<string>, now: EpochMillis)
    requires RotationDue(s, root, threshold)
    ensures var s' := ExecuteSpec(s, root, threshold, shape, now).1;
      |s'.issued| > |s.issued| + 3 && s'.issued[|s.issued| + 3] == PutContainer(ContainerIri(root, DecimalString(now)))
  {
    DueExecuteRotates(s, root, threshold, shape, now);
    var inbox := InboxOf(s, root).value;
    var s2 := s.(issued := s.issued + ReadRequests(root, inbox));
    RotationStartsWithCreate(s2, root, shape, DecimalString(now), inbox);
  }

  /**
   * `execute` writes to the pod exactly when the reads succeed and the
   * inbox's member count is at least the threshold; its first write then
   * creates the container named after the clock reading.
   */
  lemma WritesExactlyWhenDue(s: Server, root: string, threshold: int, shape: Result<string>, now: EpochMillis)
    ensures var s' := ExecuteSpec(s, root, threshold, shape, now).1;
      && (SentWrite(s'.issued, |s.issued|) <==> RotationDue(s, root, threshold))
      && (RotationDue(s, root, threshold) ==>
            |s'.issued| > |s.issued| + 3 &&
            s'.issued[|s.issued| + 3] == PutContainer(ContainerIri(root, DecimalString(now))))
  {
    var s' := ExecuteSpec(s, root, threshold, shape, now).1;
    if RotationDue(s, root, threshold) {
      DueCreatesFirst(s, root, threshold, shape, now);
      assert Writes(s'.issued[|s.issued| + 3]);
    } else {
      NotDueOnlyReads(s, root, threshold, shape, now);
    }
  }

  /** Distinct IRIs give distinct `.acl` IRIs. */
  lemma AclIriInjective(a: string, b: string)
    requires a != b
    ensures a + ".acl" != b + ".acl"
  {
    if |a| == |b| {
      assert (a + ".acl")[..|a|] == a;
      assert (b + ".acl")[..|b|] == b;
    }
  }

  /** The relation step changes no Link header and no resource but `root.ttl`. */
  lemma RelationKeeps(s: Server, root: string, name: string, iri: string)
    requires IsTimestampName(name) && iri != RootIri(root)
    ensures var s2 := RelationSpec(s, root, name).1;
      s2.links == s.links && ResourceAt(s2, iri) == ResourceAt(s, iri)
  {
    var (fetched, s1) := FetchSpec(s, RootIri(root));
    FetchReadsResource(s, RootIri(root));
    if fetched.Ok? && Match(fetched.value, None, Some(Iri(TREE_PATH)), None) != [] {
      RespondKeeps(s1, PutGraph(RootIri(root), V1.ExtendedRoot(fetched.value, root, name)), iri);
    }
  }

  /**
   * When the relation step succeeds, `root.ttl` was a document with a
   * `tree:path` and now holds its extension by the relation to the new
   * container.
   */
  lemma RelationWritesRoot(s: Server, root: string, name: string)
    requires IsTimestampName(name) && RelationSpec(s, root, name).0.Ok?
    ensures RootIri(root) in s.resources
    ensures var g := Representation(RootIri(root), s.resources[RootIri(root)]);
      && Match(g, None, Some(Iri(TREE_PATH)), None) != []
      && ResourceAt(RelationSpec(s, root, name).1, RootIri(root)) == Some(Document(V1.ExtendedRoot(g, root, name)))
  {
    RelationSendsExtension(s, root, name);
    var iri := RootIri(root);
    var g := Representation(iri, s.resources[iri]);
    var put := PutGraph(iri, V1.ExtendedRoot(g, root, name));
    var s1 := s.(issued := s.issued + [Get(iri)]);
    assert Success(StatusOf(s1, put));
    assert Respond(s1, put).1.resources == s1.resources[iri := Document(V1.ExtendedRoot(g, root, name))];
  }

  /**
   * A relation step that succeeded read `root.ttl`, found a `tree:path` in
   * it, and PUT back its extension, which the pod answered with 205.
   */
  lemma RelationSendsExtension(s: Server, root: string, name: string)
    requires IsTimestampName(name) && RelationSpec(s, root, name).0.Ok?
    ensures RootIri(root) in s.resources
    ensures var g := Representation(RootIri(root), s.resources[RootIri(root)]);
      var put := PutGraph(RootIri(root), V1.ExtendedRoot(g, root, name));
      var s1 := s.(issued := s.issued + [Get(RootIri(root))]);
      && Match(g, None, Some(Iri(TREE_PATH)), None) != []
      && StatusOf(s1, put) == 205
      && RelationSpec(s, root, name).1 == Respond(s1, put).1
  {
    FetchReadsResource(s, RootIri(root));
  }

  /** The steps of a rotation plan that store a resource store the new container and the two ACLs. */
  lemma RotationTargets(root: string, name: string, shape: string, oldContainer: string)
    ensures var plan := RotationPlan(root, name, shape, oldContainer);
      var c := ContainerIri(root, name);
      && (forall i :: 0 < i < |plan| ==> ResourceTarget(plan[i].request) != Some(c))
      && (oldContainer != c ==> forall i :: 3 < i < |plan| ==> ResourceTarget(plan[i].request) != Some(oldContainer + ".acl"))
      && (forall i :: 0 <= i < |plan| ==> ResourceTarget(plan[i].request) != Some(RootIri(root)))
      && c != RootIri(root) && oldContainer + ".acl" != RootIri(root) && c + ".acl" != RootIri(root)
  {
    var c := ContainerIri(root, name);
    EndingsDiffer(oldContainer, ".acl", root + name, "/", 1);
    EndingsDiffer(c, ".acl", root + name, "/", 1);
    if oldContainer != c {
      AclIriInjective(c, oldContainer);
    }
    EndingsDiffer(root + name, "/", root, "root.ttl", 1);
    EndingsDiffer(oldContainer, ".acl", root, "root.ttl", 2);
    EndingsDiffer(c, ".acl", root, "root.ttl", 2);
  }

  /** A rotation that succeeded was accepted at every step of its plan, and then made the relation. */
  lemma RotationAccepted(s: Server, root: string, shape: string, name: string, oldContainer: string)
    requires IsTimestampName(name)
    requires RotateSpec(s, root, Ok(shape), name, oldContainer).0.Ok?
    ensures var plan := RotationPlan(root, name, shape, oldContainer);
      && AllAccepted(s, plan) && Issue(s, plan).1 == None
      && RotateSpec(s, root, Ok(shape), name, oldContainer) == RelationSpec(Issue(s, plan).0, root, name)
      && RotateSpec(s, root, Ok(shape), name, oldContainer).0 == Ok(Rotated(ContainerIri(root, name)))
  {
    var plan := RotationPlan(root, name, shape, oldContainer);
    RotationStepsWrite(root, name, Ok(shape), oldContainer);
    IssueReportsFirstRejection(s, plan);
  }

  /** A rotation plan the pod accepts throughout creates the new container, links it as the inbox and constrains it by the shape. */
  lemma PlanMovesInbox(s: Server, root: string, shape: string, name: string, oldContainer: string)
    requires AllAccepted(s, RotationPlan(root, name, shape, oldContainer))
    ensures var s1 := Issue(s, RotationPlan(root, name, shape, oldContainer)).0;
      var c := ContainerIri(root, name);
      && ResourceAt(s1, c).Some? && ResourceAt(s1, c).value.Container?
      && LinkOf(s1, root, LDP_INBOX) == Some(c)
      && LinkOf(s1, c, LDP_CONSTRAINED_BY) == Some(shape)
  {
    var plan := RotationPlan(root, name, shape, oldContainer);
    RotationStepsWrite(root, name, Ok(shape), oldContainer);
    RotationTargets(root, name, shape, oldContainer);
    IssueLastWriteWins(s, plan, 0, ContainerIri(root, name));
    IssueLastLinkWins(s, plan, 1);
    IssueLastLinkWins(s, plan, 2);
  }

  /**
   * A rotation plan the pod accepts throughout stores the two ACLs; when the
   * old inbox is the new container, the second ACL overwrites the first.
   */
  lemma PlanSetsAcls(s: Server, root: string, shape: string, name: string, oldContainer: string)
    requires AllAccepted(s, RotationPlan(root, name, shape, oldContainer))
    ensures var s1 := Issue(s, RotationPlan(root, name, shape, oldContainer)).0;
      && ResourceAt(s1, oldContainer + ".acl") == Some(AclDocument(OldInboxAcl(root, name, oldContainer)))
      && ResourceAt(s1, ContainerIri(root, name) + ".acl") == Some(AclDocument([ReadAppendAcl(), OrchestratorAcl()]))
  {
    var plan := RotationPlan(root, name, shape, oldContainer);
    RotationStepsWrite(root, name, Ok(shape), oldContainer);
    RotationTargets(root, name, shape, oldContainer);
    IssueLastWriteWins(s, plan, 4, ContainerIri(root, name) + ".acl");
    if oldContainer != ContainerIri(root, name) {
      IssueLastWriteWins(s, plan, 3, oldContainer + ".acl");
    }
  }

  /**
   * The ACL a rotation leaves on the old inbox: read-only, unless the old
   * inbox is the new container (two rotations in the same millisecond), in
   * which case the new container's read-and-append ACL replaced it.
   */
  function OldInboxAcl(root: string, name: string, oldContainer: string): seq<Acl> {
    if oldContainer == ContainerIri(root, name) then [ReadAppendAcl(), OrchestratorAcl()]
    else [ReadOnlyAcl(), OrchestratorAcl()]
  }

  /**
   * After a rotation that succeeded: the new container exists, is the
   * root's inbox and is constrained by the shape.
   */
  lemma RotationMovesInbox(s: Server, root: string, shape: string, name: string, oldContainer: string)
    requires IsTimestampName(name)
    requires RotateSpec(s, root, Ok(shape), name, oldContainer).0.Ok?
    ensures var s' := RotateSpec(s, root, Ok(shape), name, oldContainer).1;
      var c := ContainerIri(root, name);
      && ResourceAt(s', c).Some? && ResourceAt(s', c).value.Container?
      && LinkOf(s', root, LDP_INBOX) == Some(c)
      && LinkOf(s', c, LDP_CONSTRAINED_BY) == Some(shape)
  {
    var c := ContainerIri(root, name);
    RotationAccepted(s, root, shape, name, oldContainer);
    PlanMovesInbox(s, root, shape, name, oldContainer);
    RotationTargets(root, name, shape, oldContainer);
    RelationKeeps(Issue(s, RotationPlan(root, name, shape, oldContainer)).0, root, name, c);
  }

  /**
   * After a rotation that succeeded, the new container's ACL makes it
   * readable and appendable, and the old inbox's makes it read-only, both
   * also granting the orchestrator's agent read, write and control. When
   * the old inbox is the new container (two rotations in the same
   * millisecond), the read-only ACL was overwritten and the inbox stays
   * appendable.
   */
  lemma RotationSetsAcls(s: Server, root: string, shape: string, name: string, oldContainer: string)
    requires IsTimestampName(name)
    requires RotateSpec(s, root, Ok(shape), name, oldContainer).0.Ok?
    ensures var s' := RotateSpec(s, root, Ok(shape), name, oldContainer).1;
      && ResourceAt(s', ContainerIri(root, name) + ".acl") == Some(AclDocument([ReadAppendAcl(), OrchestratorAcl()]))
      && (oldContainer != ContainerIri(root, name) ==>
            ResourceAt(s', oldContainer + ".acl") == Some(AclDocument([ReadOnlyAcl(), OrchestratorAcl()])))
      && (oldContainer == ContainerIri(root, name) ==>
            ResourceAt(s', oldContainer + ".acl") == Some(AclDocument([ReadAppendAcl(), OrchestratorAcl()])))
  {
    var s1 := Issue(s, RotationPlan(root, name, shape, oldContainer)).0;
    RotationAccepted(s, root, shape, name, oldContainer);
    PlanSetsAcls(s, root, shape, name, oldContainer);
    RotationTargets(root, name, shape, oldContainer);
    RelationKeeps(s1, root, name, oldContainer + ".acl");
    RelationKeeps(s1, root, name, ContainerIri(root, name) + ".acl");
  }

  /**
   * After a rotation that succeeded, `root.ttl` holds the graph it held
   * before the rotation, extended by the relation to the new container.
   */
  lemma RotationExtendsRoot(s: Server, root: string, shape: string, name: string, oldContainer: string)
    requires IsTimestampName(name)
    requires RotateSpec(s, root, Ok(shape), name, oldContainer).0.Ok?
    ensures RootIri(root) in s.resources
    ensures var g := Representation(RootIri(root), s.resources[RootIri(root)]);
      && Match(g, None, Some(Iri(TREE_PATH)), None) != []
      && ResourceAt(RotateSpec(s, root, Ok(shape), name, oldContainer).1, RootIri(root))
         == Some(Document(V1.ExtendedRoot(g, root, name)))
  {
    var plan := RotationPlan(root, name, shape, oldContainer);
    RotationAccepted(s, root, shape, name, oldContainer);
    RotationTargets(root, name, shape, oldContainer);
    IssueKeepsUntouched(s, plan, RootIri(root));
    var s1 := Issue(s, plan).0;
    RelationWritesRoot(s1, root, name);
  }

  /**
   * After a rotation that succeeded, the relations in `root.ttl` point at
   * pairwise distinct containers exactly when they did before and none of
   * them pointed at the new container.
   */
  lemma RotationKeepsNodesDistinct(s: Server, root: string, shape: string, name: string, oldContainer: string)
    requires IsTimestampName(name)
    requires RotateSpec(s, root, Ok(shape), name, oldContainer).0.Ok?
    ensures RootIri(root) in s.resources
    ensures var g := Representation(RootIri(root), s.resources[RootIri(root)]);
      var after := ResourceAt(RotateSpec(s, root, Ok(shape), name, oldContainer).1, RootIri(root));
      && after.Some? && after.value.Document?
      && NodeTargets(after.value.graph) == NodeTargets(g) + [Iri(ContainerIri(root, name))]
      && (DistinctNodes(after.value.graph) <==> DistinctNodes(g) && Iri(ContainerIri(root, name)) !in NodeTargets(g))
  {
    RotationExtendsRoot(s, root, shape, name, oldContainer);
    var g := Representation(RootIri(root), s.resources[RootIri(root)]);
    V1.ExtendedRootNodeTargets(g, root, name);
  }

  /**
   * `execute` without a prior `init`, once the count is due: after the
   * reads it creates the new container and then fails, with the shape
   * getter's error when the creation answered 201 (leaving the new container
   * behind) and with the creation's error otherwise; a creation the pod
   * refused changes nothing.
   */
  lemma ExecuteWithoutInit(s: Server, root: string, threshold: int, now: EpochMillis)
    requires RotationDue(s, root, threshold) && InboxOf(s, root).Some?
    ensures var (r, s') := ExecuteSpec(s, root, threshold, Err(NotInitialised), now);
      var c := ContainerIri(root, DecimalString(now));
      var status := AnswerAt(s.responses, |s.issued| + 3);
      && s'.issued == s.issued + ReadRequests(root, InboxOf(s, root).value) + [PutContainer(c)]
      && (status == 201 ==> r == Err(NotInitialised) && ResourceAt(s', c).Some? && ResourceAt(s', c).value.Container?)
      && (status != 201 ==> r == Err(NotCreated(c, status)))
      && (!Success(status) ==> s'.resources == s.resources)
      && s'.links == s.links
  {
    ReadsSeeInbox(s, root);
    var inbox := InboxOf(s, root).value;
    var s2 := s.(issued := s.issued + ReadRequests(root, inbox));
    var name := DecimalString(now);
    DecimalStringIsTimestampName(now);
    assert ExecuteSpec(s, root, threshold, Err(NotInitialised), now) == RotateSpec(s2, root, Err(NotInitialised), name, inbox);
    var step := CreateStep(root, name);
    var s3 := Respond(s2, step.request).1;
    assert Issue(s2, [step]) == (if AnswerAt(s.responses, |s.issued| + 3) == 201 then (s3, None) else (s3, Some((step.request, AnswerAt(s.responses, |s.issued| + 3)))));
  }

  /**
   * After `execute` rotated the log: the new container exists, is the
   * root's inbox and is constrained by the shape, and is readable and
   * appendable; the old inbox it read is read-only, unless it was the new
   * container itself.
   */
  lemma ExecuteRotationEndState(s: Server, root: string, threshold: int, shape: string, now: EpochMillis)
    requires InboxOf(s, root).Some?
    requires ExecuteSpec(s, root, threshold, Ok(shape), now).0 == Ok(Rotated(ContainerIri(root, DecimalString(now))))
    ensures var s' := ExecuteSpec(s, root, threshold, Ok(shape), now).1;
      var c := ContainerIri(root, DecimalString(now));
      && RotationDue(s, root, threshold)
      && ResourceAt(s', c).Some? && ResourceAt(s', c).value.Container?
      && LinkOf(s', root, LDP_INBOX) == Some(c)
      && LinkOf(s', c, LDP_CONSTRAINED_BY) == Some(shape)
      && ResourceAt(s', InboxOf(s, root).value + ".acl") == Some(AclDocument(OldInboxAcl(root, DecimalString(now), InboxOf(s, root).value)))
      && ResourceAt(s', c + ".acl") == Some(AclDocument([ReadAppendAcl(), OrchestratorAcl()]))
  {
    CurrentContainerIsInboxLink(s, root);
    assert RotationDue(s, root, threshold);
    ReadsSeeInbox(s, root);
    var inbox := InboxOf(s, root).value;
    var s2 := s.(issued := s.issued + ReadRequests(root, inbox));
    var name := DecimalString(now);
    DecimalStringIsTimestampName(now);
    assert ExecuteSpec(s, root, threshold, Ok(shape), now) == RotateSpec(s2, root, Ok(shape), name, inbox);
    RotationMovesInbox(s2, root, shape, name, inbox);
    RotationSetsAcls(s2, root, shape, name, inbox);
  }

  class Orchestrator {
    const ldes: V1.LdesInSolid

    constructor (ldes: V1.LdesInSolid)
      ensures this.ldes == ldes
    {
      this.ldes := ldes;
    }

    /** `init`: looks up the shape through the log handle. */
    method Init() returns (r: Result<()>)
      modifies ldes, ldes.session
      ensures var (shape, s') := V1.ShapeSpec(old(ldes.session.server), ldes.root);
        && ldes.session.server == s'
        && (r.Ok? <==> shape.Ok?) && (shape.Err? ==> r == Err(shape.error))
        && ldes.shapeIri == (if shape.Ok? then Some(shape.value) else old(ldes.shapeIri))
    {
      r := ldes.Init();
    }

    /** `execute`, with the clock reading it names the new container after. */
    method Execute(now: EpochMillis) returns (r: Result<Execution>)
      modifies ldes.session
      ensures (r, ldes.session.server)
        == ExecuteSpec(old(ldes.session.server), ldes.root, ldes.containerAmount, ldes.ShapeIri(), now)
    {
      var amount := ldes.GetAmountResources();
      if amount.Err? {
        return Err(amount.error);
      }
      var oldContainer := ldes.GetCurrentContainer();
      if oldContainer.Err? {
        return Err(oldContainer.error);
      }
      if amount.value < ldes.containerAmount {
        return Ok(BelowThreshold(amount.value));
      }
      var newContainerName := DecimalString(now);
      DecimalStringIsTimestampName(now);
      r := Rotate(newContainerName, oldContainer.value);
    }

    /** The writes of `execute`, from the creation of the new container on. */
    method Rotate(name: string, oldContainer: string) returns (r: Result<Execution>)
      requires IsTimestampName(name)
      modifies ldes.session
      ensures (r, ldes.session.server) == RotateSpec(old(ldes.session.server), ldes.root, ldes.ShapeIri(), name, oldContainer)
    {
      var newContainerIri := ldes.root + name + "/";
      ghost var s0 := ldes.session.server;
      ghost var plan := RotationSteps(ldes.root, name, ldes.ShapeIri(), oldContainer);

      var created := ldes.CreateContainer(name);
      if created.status != 201 {
        return Err(NotCreated(newContainerIri, created.status));
      }
      assert Issue(s0, plan) == Issue(ldes.session.server, plan[1..]);

      var shaped := ldes.AddShape(name);
      if shaped.Err? {
        return Err(shaped.error);
      }
      if shaped.value.status != 205 {
        return Err(Rejected(newContainerIri, shaped.value.status));
      }
      assert Issue(s0, plan) == Issue(ldes.session.server, plan[2..]);

      var inbox := ldes.UpdateInbox(name);
      if inbox.status != 205 {
        return Err(Rejected(ldes.root, inbox.status));
      }
      assert Issue(s0, plan) == Issue(ldes.session.server, plan[3..]);

      var orchestratorAcl := CreateAclContent("orchestrator", [ACL_READ, ACL_WRITE, ACL_CONTROL], Some(ORCHESTRATOR_WEB_ID));
      var aclReadStore := CreateAclContent("#authorization", [ACL_READ], None);
      var oldAcl := ldes.UpdateAcl(oldContainer + ".acl", [aclReadStore, orchestratorAcl]);
      if oldAcl.status != 205 {
        return Err(Rejected(oldContainer + ".acl", oldAcl.status));
      }
      assert Issue(s0, plan) == Issue(ldes.session.server, plan[4..]);
      ghost var s4 := ldes.session.server;

      var aclReadAppend := CreateAclContent("#authorization", [ACL_READ, ACL_APPEND], None);
      var newAcl := ldes.UpdateAcl(newContainerIri + ".acl", [aclReadAppend, orchestratorAcl]);
      if newAcl.status != 201 {
        return Err(Rejected(newContainerIri + ".acl", newAcl.status));
      }
      assert plan[4..][1..] == [] && plan[4].request == PutAcl(newContainerIri + ".acl", [aclReadAppend, orchestratorAcl]);
      assert Issue(s4, plan[4..]) == Issue(ldes.session.server, []);
      assert Issue(s0, plan) == (ldes.session.server, None);

      var relation := ldes.AddRelation(name);
      if relation.Err? {
        return Err(relation.error);
      }
      if relation.value.status != 205 {
        return Err(Rejected(ldes.root + "root.ttl", relation.value.status));
      }
      r := Ok(Rotated(newContainerIri));
    }
  }
}
