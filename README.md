# LDES in Solid orchestrator — a Dafny model

The LDES-Orchestrator keeps an append-only event log, a Linked Data Event Stream (LDES), in a Solid pod. The log is a chain of LDP containers. The root container holds an index `root.ttl`, a TREE Collection whose root Node has one relation per container. The root's `ldp:inbox` Link header (RFC 8288, section 3) names the container that clients currently append to.

When the inbox holds at least the threshold's number of members, the orchestrator rotates it:
1. It creates a new container.
2. It constrains the new container by the log's shape.
3. It makes the new container the inbox.
4. It makes the old inbox read-only.
5. It makes the new container readable and appendable.
6. It adds a relation to the new container in `root.ttl`.

Each write must answer one fixed status, 201 Created or 205 Reset Content. The first write that answers anything else stops the run, and nothing already done is undone.

This project models:
- the ACL body builder `createAclContent`;
- the index-graph builders `createEventStream` and `addRelation`;
- the version-1 log handle `LDESinSolid`, with its lazily discovered shape;
- the rotation `Orchestrator.execute` and `init`, run against the version-1 handle;
- the version-2 handle, which reads a log's configuration back from the pod (`getConfig`) and creates a whole new log in seven ordered writes (`createLDESinLDP`).

The pod is a value of type `Pod.Server`:
- its resources, which are containers, ACL documents and RDF documents;
- the Link headers of each resource;
- the requests it has received;
- the status codes it will answer with.

The status codes are an input: request number k is answered with `responses[k]`. Every claim about the orchestrator is therefore a claim about which requests it sends, in what order, what it leaves on the pod, and where it stops, for every possible sequence of answers. A write takes effect exactly when its status is a 2xx. A GET of a missing resource answers 404.

The code is modelled in its own form:
- The handles and the orchestrator are classes.
- The session is a `Pod.Remote` object whose `Send` changes its `server` field.
- The n3 triple store is a `Rdf.Store` object, changed in place by `createBlankNode` and `addQuad`.
- Each method is proved equal to a specification function on the pod value. The properties the code promises are proved about those functions as lemmas.
- The ordered multi-step writes of both `execute` and `createLDESinLDP` are one plan executor, `Pod.Issue`, with generic lemmas in module `Plan`.

Modules (one file each): `Numbers`, `Results`, `Vocabulary`, `Rdf`, `Acl`, `EventStream`, `Pod`, `Plan`, `Reads`, `LdesInSolid` (v1), `Orchestrator`, `LdesInSolidV2`.

## Model

| member | source | states |
|---|---|---|
| Acl.UriModes | src/util/Acl.ts:15-16 | one `{"@id": m}` per input mode, in input order |
| Acl.AclBody | src/util/Acl.ts:14-32 | `@id` is the argument; `@type` is `[acl:Authorization]`; the vocabulary is the ACL namespace; `accessTo` and `default` are `./`; the modes are the inputs in order; a truthy agent gives `agent` and no `agentClass`; an absent or empty agent gives `agentClass foaf:Agent` and no `agent`; exactly one of the two is present |
| Acl.CreateAclContent | src/util/Acl.ts:14-32 | the `forEach`/`push` loop and the post-construction agent assignment build exactly `AclBody` |
| Numbers.DecimalString | src/Orchestrator.ts:33 | `getTime().toString()` is a non-empty digit string without a leading zero |
| Numbers.DigitsValueOfDecimalString | src/util/EventStream.ts:62 | `Number(n.toString()) == n`: parsing a container name gives back the clock reading |
| Numbers.DecimalStringInjective | src/Orchestrator.ts:33 | distinct clock readings give distinct container names |
| Numbers.TimestampName | src/LDESinSolidv2.ts:209 | the container name is a timestamp name whose value is the clock reading |
| Numbers.IsoDateTime | src/util/EventStream.ts:62 | `toISOString` gives 24 characters (27 past year 9999) ending `.sssZ` with `T` between date and time |
| Rdf.Match | src/LDESinSolid.ts:100 | `getQuads` returns no more triples than the store holds |
| Rdf.MatchMembers | src/LDESinSolid.ts:100 | `getQuads` returns exactly the stored triples that fit the pattern |
| Rdf.MatchAll | src/LDESinSolidv2.ts:227 | `getQuads(null, null, null, null)` returns the whole store |
| Rdf.FreshBlank | src/util/EventStream.ts:61 | the blank node handed out is the first counter value at or after the counter that the store does not use |
| Rdf.Store.CreateBlankNode | src/util/EventStream.ts:61 | the counter loop returns `FreshBlank` and leaves the triples alone |
| Rdf.Store.AddQuad | src/util/EventStream.ts:66 | a triple already present is not added twice; otherwise it is appended |
| EventStream.RelationTriplesAreNew | src/util/EventStream.ts:61-71 | on a fresh blank node the five relation triples are pairwise distinct and none is in the store |
| EventStream.AddQuads | src/util/EventStream.ts:66-71 | adding the five new triples appends exactly them, changing nothing else |
| EventStream.AddRelation | src/util/EventStream.ts:60-72 | the store gains exactly the relation's five triples on a fresh node: link from `base+root.ttl`, type `treeRelation`, node `base+name+"/"`, path `treePath`, and the `xsd:dateTime` value of `Number(name)` |
| EventStream.AddedRelationHangsOffRoot | src/util/EventStream.ts:63-66 | afterwards the root's relations are the old ones followed by the new node |
| EventStream.AddedRelationNodeTargets | src/util/EventStream.ts:60-71 | adding a relation appends its container `base+name+"/"` to the graph's `tree:node` targets and changes no other target |
| EventStream.AddedRelationKeepsNodesDistinct | src/util/EventStream.ts:60-71 | after adding a relation the targets are pairwise distinct exactly when they were before and the new container was not among them |
| EventStream.RepeatedRelationsAreDistinct | src/util/EventStream.ts:61 | two calls with the same arguments create two different relation nodes |
| EventStream.CreateEventStream | src/util/EventStream.ts:26-49 | the new store holds the parsed Collection and root Node followed by one relation to the first container |
| EventStream.InitialGraphDescribesCollection | src/util/EventStream.ts:27-33 | `#Collection` is an `ldes:EventStream` with `tree:shape` = shape and `tree:view` = `root.ttl`, each exactly once |
| EventStream.InitialGraphHasOneRelation | src/util/EventStream.ts:35-47 | the root Node is a `tree:Node` with exactly one relation, of type GreaterThanOrEqualTo whatever the configuration, with path `treePath` and node `base+name+"/"` |
| Pod.Respond | src/LDESinSolid.ts:113 | a request is logged, answered with the next status (404 for a GET of a missing resource), and a read changes nothing |
| Pod.AuthorizationAgent | src/LDESinSolidv2.ts:80 | the only `acl:agent` triple of an authorization is the one its `agent` member gives |
| Pod.Remote.Send | src/LDESinSolid.ts:113 | `session.fetch` is one `Respond` on the pod |
| Pod.Issue | src/Orchestrator.ts:35-80 | the ordered writes with a status check after each, stopping at the first refused one; its properties are the `Plan` lemmas below |
| Plan.IssueSendsUpToFirstRejection | src/Orchestrator.ts:35-80 | an ordered plan sends its requests in order up to and including the first refused one, and none after |
| Plan.IssueReportsFirstRejection | src/Orchestrator.ts:35-80 | the plan fails exactly at its first refused step, with that request and status |
| Plan.AllAcceptedSendsAll | src/LDESinSolidv2.ts:200-241 | when every step is accepted, all requests are sent and nothing fails |
| Plan.IssueExtendsLog | src/Orchestrator.ts:35-80 | an ordered plan only appends to the request log, its first request first, and leaves the scripted answers alone |
| Plan.IssueKeepsUntouched | src/Orchestrator.ts:35-80 | a resource no step writes is left as it was |
| Plan.IssueLastWriteWins | src/Orchestrator.ts:35-80 | after an accepted plan, a resource holds what its last write stored |
| Plan.IssueKeepsLink | src/Orchestrator.ts:43-52 | a Link header no step sets is left as it was |
| Plan.IssueLastLinkWins | src/Orchestrator.ts:43-52 | after an accepted plan, a Link header holds what its last write set |
| Plan.IssueAppend | src/LDESinSolidv2.ts:200-241 | running two phases one after the other is running their concatenation |
| Reads.CurrentContainerIsInboxLink | src/LDESinSolid.ts:76-90 | `getCurrentContainer` returns the root's `ldp:inbox` link; it fails without a Link header or without that entry; one HEAD, pod unchanged |
| Reads.FetchReadsResource | src/LDESinSolid.ts:110-122 | `fetchStore` succeeds exactly when the resource exists and the status is 200, and yields its triples; pod unchanged |
| Reads.AmountCountsMembers | src/LDESinSolid.ts:92-102 | the count is the inbox's number of members: only its `ldp:contains` triples are counted |
| Reads.ThresholdOf | src/LDESinSolid.ts:30-34 | the threshold is `amount` when given and non-zero, 100 otherwise |
| LdesInSolid.ShapeIsInboxConstraint | src/LDESinSolid.ts:61-74 | the shape is the `ldp:constrainedBy` link of the container the inbox link names; found with two HEADs; pod unchanged |
| LdesInSolid.AddRelationWritesOnlyRoot | src/LDESinSolid.ts:190-221 | with a `tree:path` in `root.ttl` and the reads accepted: one GET, one PUT, `root.ttl` replaced by the extended graph, nothing else changed |
| LdesInSolid.ExtendedRootHasOneMoreRelation | src/LDESinSolid.ts:195-209 | the PUT graph is the old graph plus exactly one relation from the root, on a blank node the old graph does not use |
| LdesInSolid.ExtendedRootNodeTargets | src/LDESinSolid.ts:195-209 | the PUT graph's `tree:node` targets are the old graph's followed by the new container; distinct exactly when the old ones were and the new container is new |
| LdesInSolid.LdesInSolid.constructor | src/LDESinSolid.ts:25-37 | stores the session and root; threshold defaults to 100; no shape yet |
| LdesInSolid.LdesInSolid.ShapeIri | src/LDESinSolid.ts:47-50 | fails with "You should have initialised." until a non-empty shape was stored |
| LdesInSolid.LdesInSolid.Init | src/LDESinSolid.ts:56-74 | stores the shape `getShape` finds; on failure the field is unchanged |
| LdesInSolid.LdesInSolid.GetCurrentContainer | src/LDESinSolid.ts:76-90 | the HEAD and the two checks of the Link header, as `CurrentContainerSpec` |
| LdesInSolid.LdesInSolid.FetchStore | src/LDESinSolid.ts:110-122 | a fresh store holding the fetched triples, or a failure unless the status is 200 |
| LdesInSolid.LdesInSolid.GetAmountResources | src/LDESinSolid.ts:92-102 | the inbox lookup, the fetch and the `ldp:contains` count, as `AmountSpec` |
| LdesInSolid.LdesInSolid.CreateContainer | src/LDESinSolid.ts:130-141 | one container PUT to `root+name+"/"`, status returned unchecked |
| LdesInSolid.LdesInSolid.AddShape | src/LDESinSolid.ts:143-154 | sets `ldp:constrainedBy` of `root+name+"/"` to the shape; without a shape it fails before sending anything |
| LdesInSolid.LdesInSolid.UpdateAcl | src/LDESinSolid.ts:156-166 | one ACL PUT, status returned unchecked |
| LdesInSolid.LdesInSolid.UpdateInbox | src/LDESinSolid.ts:173-183 | sets the root's `ldp:inbox` link to `root+name+"/"` |
| LdesInSolid.LdesInSolid.AddRelation | src/LDESinSolid.ts:190-221 | read-modify-write of `root.ttl`: fails without a `tree:path`, otherwise PUTs the graph with one more relation reusing the first path |
| Orchestrator.OrchestratorAcl | src/Orchestrator.ts:57 | read, write and control for the WebID hard-coded in the source, not the log's owner |
| Orchestrator.ReadOnlyAcl | src/Orchestrator.ts:58 | everyone may read |
| Orchestrator.ReadAppendAcl | src/Orchestrator.ts:68 | everyone may read and append |
| Orchestrator.ReadsSeeInbox | src/Orchestrator.ts:24-25 | when the count succeeds, both reads see the root's inbox link; afterwards only the three reads are logged |
| Orchestrator.NotDueOnlyReads | src/Orchestrator.ts:24-30 | below the threshold or on a failed read: at most three reads (HEAD, GET, HEAD), no write, pod unchanged, the count reported |
| Orchestrator.WritesExactlyWhenDue | src/Orchestrator.ts:27-35 | `execute` writes exactly when the count is at least the threshold; its first write creates `root + now + "/"` |
| Orchestrator.RotationStartsWithCreate | src/Orchestrator.ts:35 | a rotation always sends the container creation first |
| Orchestrator.RotateRefused | src/Orchestrator.ts:35-80 | when a step is refused, the rotation has sent its steps in order up to and including that one, none after, undid nothing, and failed with that step's error |
| Orchestrator.RotateSendsWholePlan | src/Orchestrator.ts:35-80 | when no step is refused, all five steps were sent in order; without a shape the rotation then fails with the shape getter's error and sends nothing more |
| Orchestrator.RotationErrors | src/Orchestrator.ts:36-71 | the error each of the five steps throws: statuses 201, 205, 205, 205, 201 |
| Orchestrator.DueExecuteRotates | src/Orchestrator.ts:23-35 | once the count is due, the inbox link was found and `execute` is the rotation named after the clock reading, run on the pod after the three reads, with the inbox read as the old container |
| Orchestrator.ExecuteStopsAtFirstRefusal | src/Orchestrator.ts:23-80 | once due and a step is refused: the three reads, then the rotation steps up to and including that one, and that step's error; the read-only ACL targets the inbox read before any write |
| Orchestrator.ExecuteSendsWholePlan | src/Orchestrator.ts:23-80 | once due and no step is refused: the three reads, then all five rotation steps in order |
| Orchestrator.DueCreatesFirst | src/Orchestrator.ts:33-35 | once due, the first request after the three reads creates `root + now + "/"` |
| Orchestrator.RotationStepsWrite | src/Orchestrator.ts:35-71 | every rotation step is a write whose accepted status is a success |
| Orchestrator.RelationSendsExtension | src/LDESinSolid.ts:190-221 | a relation step that succeeded found `root.ttl` with a `tree:path`, GETted it, and its PUT of the extended graph was answered 205 |
| Orchestrator.RelationWritesRoot | src/Orchestrator.ts:78-80 | a relation step that succeeded replaced `root.ttl` by its extension |
| Orchestrator.RotationAccepted | src/Orchestrator.ts:35-80 | a successful rotation was accepted at every step and reports the new container |
| Orchestrator.RotationMovesInbox | src/Orchestrator.ts:35-54 | afterwards the new container exists, is the inbox and is constrained by the shape |
| Orchestrator.RotationSetsAcls | src/Orchestrator.ts:57-72 | afterwards the new container's ACL is [everyone Read/Append, agent Read/Write/Control]; the old inbox's is [everyone Read, same agent], except when the old inbox is the new container (two rotations in one millisecond), where the second ACL overwrote the first and the inbox stays appendable |
| Orchestrator.RotationExtendsRoot | src/Orchestrator.ts:78-80 | afterwards `root.ttl` is its old graph plus the relation to the new container |
| Orchestrator.ExecuteWithoutInit | src/Orchestrator.ts:35-45 | without `init`, a due `execute` creates the container, then fails at the shape getter and leaves that container behind |
| Orchestrator.ExecuteRotationEndState | src/Orchestrator.ts:23-82 | a successful `execute` was due and leaves the new inbox, its shape and both ACLs in place; the inbox it read is read-only unless it was the new container itself |
| Orchestrator.RotationKeepsNodesDistinct | src/Orchestrator.ts:77-80 | after a successful rotation the `tree:node` targets in `root.ttl` are the old ones followed by the new container; they are pairwise distinct exactly when the old ones were and did not include the new container |
| Orchestrator.Orchestrator.Init | src/Orchestrator.ts:19-21 | delegates to the handle's `init` |
| Orchestrator.Orchestrator.Execute | src/Orchestrator.ts:23-85 | the method is `ExecuteSpec` on the pod, with the clock reading `now` |
| Orchestrator.Orchestrator.Rotate | src/Orchestrator.ts:33-82 | the six awaited steps with their status checks are `RotateSpec` |
| LdesInSolidV2.FirstObject | src/LDESinSolidv2.ts:61 | `getQuads(...)[0].object`: fails exactly on an empty match, otherwise the object of a stored triple |
| LdesInSolidV2.GetConfigOnlyReads | src/LDESinSolidv2.ts:55-58 | `getConfig` GETs `root.ttl` then `.acl` and changes nothing on the pod |
| LdesInSolidV2.CreateThenReadGraphs | src/LDESinSolidv2.ts:55-58 | after a successful creation, `getConfig`'s two reads see the initial index graph and the root ACL's graph |
| LdesInSolidV2.CreateThenGetConfig | src/LDESinSolidv2.ts:55-83 | after a successful creation, `getConfig` returns the base, shape, tree path and agent written, with relation type GreaterThanOrEqualTo; with an empty agent it fails |
| LdesInSolidV2.RootAclAgents | src/LDESinSolidv2.ts:205-207 | the root ACL names one agent, the configured one, unless it is empty |
| LdesInSolidV2.LdesInSolid.constructor | src/LDESinSolidv2.ts:27-37 | stores the two configurations and the session; threshold defaults to 100 |
| LdesInSolidV2.LdesInSolid.GetConfig | src/LDESinSolidv2.ts:55-83 | the two fetches and the five `[0]` lookups, as `GetConfigSpec` |
| LdesInSolidV2.LdesInSolid.GetAmountResources | src/LDESinSolidv2.ts:85-94 | the count of the inbox's `ldp:contains` triples, as `AmountSpec` |
| LdesInSolidV2.LdesInSolid.GetCurrentContainer | src/LDESinSolidv2.ts:96-108 | the root's `ldp:inbox` link, as `CurrentContainerSpec` |
| LdesInSolidV2.LdesInSolid.FetchStore | src/LDESinSolidv2.ts:117-132 | a fresh store holding the fetched triples, or a failure unless the status is 200 |
| LdesInSolidV2.LdesInSolid.CreateContainer | src/LDESinSolidv2.ts:140-155 | 201 succeeds; 205 fails as already existing; any other status fails as not created |
| LdesInSolidV2.LdesInSolid.UpdateAcl | src/LDESinSolidv2.ts:157-170 | succeeds exactly on 201 or 205 |
| LdesInSolidV2.LdesInSolid.AddShape | src/LDESinSolidv2.ts:172-184 | sets `ldp:constrainedBy`; succeeds exactly on 205 |
| LdesInSolidV2.LdesInSolid.UpdateInbox | src/LDESinSolidv2.ts:186-198 | sets `ldp:inbox`; succeeds exactly on 205 |
| LdesInSolidV2.LdesInSolid.CreateLdesInLdp | src/LDESinSolidv2.ts:200-241 | the seven writes, as `CreateSpec` |
| LdesInSolidV2.LdesInSolid.CreateRoot | src/LDESinSolidv2.ts:201-207 | the root container PUT, then its ACL [agent Read/Write/Control, everyone Read], each status checked, as the first phase of `CreateSpec` |
| LdesInSolidV2.LdesInSolid.CreateFirstContainer | src/LDESinSolidv2.ts:209-218 | the first container PUT, its shape link and the root's inbox link, as the second phase |
| LdesInSolidV2.LdesInSolid.CreateView | src/LDESinSolidv2.ts:220-239 | the first container's ACL [agent Read/Write/Control, everyone Read/Append], then the POST of `root.ttl` holding the new EventStream, which must answer 201, as the third phase |
| LdesInSolidV2.EventStreamQuads | src/LDESinSolidv2.ts:225-227 | the quads of `createEventStream` are the new log's whole index graph |
| LdesInSolidV2.InitPlanWrites | src/LDESinSolidv2.ts:200-241 | creation is seven writes, each accepted only on a success status |
| LdesInSolidV2.CreateSendsUpToFirstRefusal | src/LDESinSolidv2.ts:200-241 | creation sends its seven writes in order up to the first refused one and no later one |
| LdesInSolidV2.CreateReportsFirstRefusal | src/LDESinSolidv2.ts:200-241 | creation succeeds exactly when all seven writes are accepted, otherwise fails with the first refusal's error |
| LdesInSolidV2.InitErrors | src/LDESinSolidv2.ts:148-153 | the error of each refused creation step; a container answering 205 already existed |
| LdesInSolidV2.CreateAccepted | src/LDESinSolidv2.ts:200-241 | a successful creation was accepted at every step and sent exactly seven requests |
| LdesInSolidV2.InitTargetsDistinct | src/LDESinSolidv2.ts:202-225 | the base, its ACL, the first container, its ACL and `root.ttl` are pairwise distinct IRIs |
| LdesInSolidV2.CreateBuildsContainers | src/LDESinSolidv2.ts:202-212 | afterwards the root and `base+name+"/"` are containers |
| LdesInSolidV2.CreateLinksInbox | src/LDESinSolidv2.ts:215-218 | afterwards the first container is constrained by the shape and is the root's inbox |
| LdesInSolidV2.CreateWritesAclsAndView | src/LDESinSolidv2.ts:205-239 | afterwards the root ACL is [owner Read/Write/Control, everyone Read], the first container's is [owner Read/Write/Control, everyone Read/Append], and `root.ttl` holds the new EventStream |

## Left out

- Authentication: `isLoggedIn` and the session's login state (src/Login.ts) are not modelled; the session is always logged in.
- Logging and console output (src/logging/Logger.ts and every `console.log`) are not modelled.
- Turtle and JSON-LD parsing and serialisation (rdf-parse, the n3 Writer, rdf-store-stream) are not modelled. A document travels as its triples. A fetched graph keeps the blank-node numbers it was stored with. The relative IRIs of the JSON-LD ACL bodies (`./`, `orchestrator`, `#authorization`) are kept unresolved.
- The n3 store's index order is modelled as insertion order. `getQuads` returns matches in the order they were added.
- A term's string `id` is the term itself. IRIs compare as strings; a blank node's id is `_:b` followed by its number.
- Link-header parsing (`parse-link-header`) is a map from relation type to target. Two links with the same relation type are not modelled.
- src/util/Vocabularies.ts is not part of this model. Its IRIs are written out as the standard namespace IRIs of ACL, FOAF, LDP, RDF, XSD, TREE and LDES.
- The HTTP transport is modelled as the `Pod.Server` value. Response URLs are not modelled. The pod's own choices are modelled as follows:
  - A POST's `Slug` is honoured as given (section 5.2.3.10 of W3C LDP 1.0 lets the server choose another name).
  - Creating a resource does not add it to its parent container's members.
  - Members that other clients append to the inbox are part of the pod given as input.
- The clock `new Date().getTime()` is the parameter `now` of `Orchestrator.Orchestrator.Execute` and `LdesInSolidV2.LdesInSolid.CreateLdesInLdp`. Readings before 1970 are not modelled.
- The polling driver, `sleep`, src/index.ts, src/test.ts and the tests' phantom v2-style calls are timing, wiring or absent from the modelled sources.
- `getConfig`'s TypeError on an empty lookup is modelled as the error `MissingTriple(predicate)`.
- The HEAD status of `getCurrentContainer` and `getShape` is not checked, as in the source.
- Concurrency is not modelled: between two requests the pod changes only by the requests this code sends.
- The pod's own ACL enforcement (who may read or write after a rotation) is not modelled; only the ACL documents written are.
- EventStream.AddRelation: requires `newNode` to be a timestamp name, which its documentation (src/util/EventStream.ts:57) demands. The source also accepts other strings: `""`, `"-1"` and `"1e3"` are rendered as dates through `Number`, and only strings giving NaN or a time out of the `Date` range throw. Those other strings are not modelled.
- LdesInSolid.LdesInSolid.AddRelation: requires a timestamp name for the same reason, leaving out the same non-timestamp strings; `execute` always passes a timestamp name.
- Orchestrator.Orchestrator.Rotate: requires a timestamp name for the same reason, leaving out the same non-timestamp strings; `Execute` always passes a timestamp name.
- EventStream.CollectionTriples: the JSON-LD identifiers `#Collection` and `root.ttl` (src/util/EventStream.ts:29-44) are resolved by appending them to `base`. That agrees with the parser's resolution against `base` only when `base` ends in `/` and has no query or fragment, as a container IRI does. For a `base` not ending in `/`, the source's `tree:view` and root Node would be a sibling of `base`, while `addRelation` hangs relations off `base + "root.ttl"`; that mismatch is not modelled.
- Reads.FetchSpec: the n3 Store a fetched document is parsed into drops duplicate triples; the model keeps the document's triples as stored. So a container listing a member twice is counted twice by `Reads.AmountCountsMembers`, where the source counts it once. A Solid pod lists each member once.
- LdesInSolid.LdesInSolid.constructor: `amount` is an integer or absent; the falsy `NaN` is not modelled.
- LdesInSolidV2.LdesInSolid.constructor: the same for its `amount`.
- Numbers.IsoDateTime: its contract states only the layout of the string. The date is computed by counting whole years from 1970 and then whole months (`YearAndDay`, `MonthAndDay`, Gregorian leap years). That count is not checked against a second, closed-form calendar.
