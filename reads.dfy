// The read-only steps both versions of the log handle share: finding the
// current inbox through the root's `ldp:inbox` Link header, fetching a
// resource into a triple store, and counting the inbox's members.
module Reads {
  import opened Results
  import opened Rdf
  import opened Pod
  import opened Vocabulary

  /**
   * `getCurrentContainer`: a HEAD of the log's root; the target of its
   * `ldp:inbox` Link header. Fails when the response has no Link header, or
   * has one without an `ldp:inbox` entry.
   */
  function CurrentContainerSpec(s: Server, root: string): (Result<string>, Server) {
    var (resp, s1) := Respond(s, Head(root));
    if resp.links.None? then (Err(NoLinkHeader(root)), s1)
    else if LDP_INBOX !in resp.links.value then (Err(NoInboxLink), s1)
    else (Ok(resp.links.value[LDP_INBOX]), s1)
  }

  /** `fetchStore(iri)`: a GET whose body is parsed into a store; any status but 200 fails. */
  function FetchSpec(s: Server, iri: string): (Result<seq<Triple>>, Server) {
    var (resp, s1) := Respond(s, Get(iri));
    if resp.status != 200 then (Err(FetchFailed(iri)), s1) else (Ok(resp.body), s1)
  }

  /** `getAmountResources`: the number of `ldp:contains` triples whose subject is the current inbox. */
  function AmountSpec(s: Server, root: string): (Result<nat>, Server) {
    var (inbox, s1) := CurrentContainerSpec(s, root);
    if inbox.Err? then (Err(inbox.error), s1)
    else
      var (store, s2) := FetchSpec(s1, inbox.value);
      if store.Err? then (Err(store.error), s2)
      else (Ok(|Match(store.value, Some(Iri(inbox.value)), Some(Iri(LDP_CONTAINS)), None)|), s2)
  }

  /** The inbox link the pod reports for `root`, if it reports one. */
  function InboxOf(s: Server, root: string): Option<string> {
    if root in s.links && LDP_INBOX in s.links[root] then Some(s.links[root][LDP_INBOX]) else None
  }

  /**
   * `getCurrentContainer` returns exactly the pod's `ldp:inbox` link of the
   * root, fails otherwise, sends one HEAD and changes nothing on the pod.
   */
  lemma CurrentContainerIsInboxLink(s: Server, root: string)
    ensures var (r, s1) := CurrentContainerSpec(s, root);
      && (r.Ok? <==> InboxOf(s, root).Some?)
      && (r.Ok? ==> r.value == InboxOf(s, root).value)
      && (r.Err? ==> r.error == (if root in s.links then NoInboxLink else NoLinkHeader(root)))
      && s1 == s.(issued := s.issued + [Head(root)])
  {
  }

  /**
   * `fetchStore` succeeds exactly when the resource exists and the pod
   * answers 200, and then yields the resource's triples; it changes nothing
   * on the pod.
   */
  lemma FetchReadsResource(s: Server, iri: string)
    ensures var (r, s1) := FetchSpec(s, iri);
      && (r.Ok? <==> iri in s.resources && AnswerAt(s.responses, |s.issued|) == 200)
      && (r.Ok? ==> r.value == Representation(iri, s.resources[iri]))
      && (r.Err? ==> r.error == FetchFailed(iri))
      && s1 == s.(issued := s.issued + [Get(iri)])
  {
  }

  /** Each member of a container is listed by exactly one `ldp:contains` triple of the container. */
  lemma {:induction false} ContainsTriplesCount(iri: string, members: seq<string>)
    ensures Match(ContainsTriples(iri, members), Some(Iri(iri)), Some(Iri(LDP_CONTAINS)), None) == ContainsTriples(iri, members)
    ensures |ContainsTriples(iri, members)| == |members|
  {
    if members != [] {
      ContainsTriplesCount(iri, members[1..]);
    }
  }

  /**
   * When the inbox is a container and the pod answers the two reads, the
   * member count is the number of the inbox's members: the container's own
   * type triple is not counted.
   */
  lemma AmountCountsMembers(s: Server, root: string)
    requires InboxOf(s, root).Some? && InboxOf(s, root).value in s.resources
    requires s.resources[InboxOf(s, root).value].Container?
    requires AnswerAt(s.responses, |s.issued| + 1) == 200
    ensures AmountSpec(s, root).0 == Ok(|s.resources[InboxOf(s, root).value].members|)
  {
    var inbox := InboxOf(s, root).value;
    var members := s.resources[inbox].members;
    var head := Triple(Iri(inbox), Iri(RDF_TYPE), Iri(LDP_CONTAINER));
    ContainsTriplesCount(inbox, members);
    MatchAppend([head], ContainsTriples(inbox, members), Some(Iri(inbox)), Some(Iri(LDP_CONTAINS)), None);
  }

  /** The container threshold: `amount` when it is given and not 0, 100 otherwise. */
  function ThresholdOf(amount: Option<int>): (t: int)
    ensures amount.None? || amount.value == 0 ==> t == 100
    ensures amount.Some? && amount.value != 0 ==> t == amount.value
  {
    if amount.Some? && amount.value != 0 then amount.value else 100
  }
}
