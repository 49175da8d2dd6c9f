// The index graph of the log (src/util/EventStream.ts): the Collection that
// describes the stream, its root Node `root.ttl`, and the TREE relations that
// point from the root Node to each container.
module EventStream {
  import opened Results
  import opened Rdf
  import opened Numbers
  import opened Vocabulary

  /** `base + "root.ttl"`, the root Node and the view of the Collection. */
  function RootIri(base: string): string { base + "root.ttl" }

  /** `base + "#Collection"`, the EventStream subject. */
  function CollectionIri(base: string): string { base + "#Collection" }

  /** `base + name + "/"`, the container a relation points to. */
  function ContainerIri(base: string, name: string): string { base + name + "/" }

  /**
   * The five triples of one relation `rel` from the root Node to the container
   * `name`: its link from the root, its type, its node, its path and its
   * value, the `xsd:dateTime` literal whose text is `dateTime` (the ISO form
   * of the container's timestamp, computed before the triples are added).
   */
  function RelationTriples(rel: Term, base: string, name: string, path: Term,
                           relationType: string, dateTime: string): seq<Triple>
  {
    [ Triple(Iri(RootIri(base)), Iri(TREE_RELATION), rel),
      Triple(rel, Iri(RDF_TYPE), Iri(relationType)),
      Triple(rel, Iri(TREE_NODE), Iri(ContainerIri(base, name))),
      Triple(rel, Iri(TREE_PATH), path),
      Triple(rel, Iri(TREE_VALUE), Literal(dateTime, XSD_DATE_TIME)) ]
  }

  /** The relation subject `addRelation` allocates in a store holding `ts` with counter `counter`. */
  function NextRelationNode(ts: seq<Triple>, counter: nat): Term {
    Blank(FreshBlank(ts, counter))
  }

  /**
   * The five triples of a relation on a fresh blank node are five distinct
   * triples none of which the store already holds: adding them adds exactly
   * five triples and changes none.
   */
  lemma RelationTriplesAreNew(ts: seq<Triple>, rel: Term, base: string, name: string, path: Term,
                              relationType: string, dateTime: string)
    requires rel.Blank? && !Uses(ts, rel)
    ensures var added := RelationTriples(rel, base, name, path, relationType, dateTime);
      && |added| == 5
      && (forall i :: 0 <= i < 5 ==> added[i] !in ts && TripleUses(added[i], rel))
      && (forall i, j :: 0 <= i < j < 5 ==> added[i] != added[j])
  {
    var added := RelationTriples(rel, base, name, path, relationType, dateTime);
    assert added[0].o == rel && !added[0].s.Blank?;
    assert forall i :: 1 <= i < 5 ==> added[i].s == rel;
    assert forall i :: 0 <= i < 5 ==> TripleUses(added[i], rel);
    forall i | 0 <= i < 5
      ensures added[i] !in ts
    {
      assert forall k :: 0 <= k < |ts| ==> !TripleUses(ts[k], rel);
    }
    assert TREE_NODE[|TREE_NODE| - 1] != TREE_PATH[|TREE_PATH| - 1];
    assert added[1].p != added[2].p && added[1].p != added[3].p && added[1].p != added[4].p;
    assert added[2].p != added[3].p && added[2].p != added[4].p && added[3].p != added[4].p;
    forall i, j | 0 <= i < j < 5
      ensures added[i] != added[j]
    {
      if i == 0 {
        assert added[i].s != added[j].s;
      } else {
        assert added[i].p != added[j].p;
      }
    }
  }

  /** Adding the five triples one by one, each only if absent, appends them all. */
  method AddQuads(store: Store, added: seq<Triple>)
    requires forall i :: 0 <= i < |added| ==> added[i] !in store.triples
    requires forall i, j :: 0 <= i < j < |added| ==> added[i] != added[j]
    modifies store
    ensures store.triples == old(store.triples) + added && store.blankIndex == old(store.blankIndex)
  {
    var i := 0;
    while i < |added|
      invariant 0 <= i <= |added|
      invariant store.triples == old(store.triples) + added[..i]
      invariant store.blankIndex == old(store.blankIndex)
    {
      assert added[i] !in added[..i];
      store.AddQuad(added[i]);
      i := i + 1;
    }
  }

  /**
   * `addRelation(store, treePath, treeRelation, newNode, base)`: allocates a
   * blank relation node and adds its five triples to the store in place.
   * `newNode` must be a timestamp name, as its documentation demands.
   */
  method AddRelation(store: Store, treePath: string, treeRelation: string, newNode: string, base: string)
    requires IsTimestampName(newNode)
    modifies store
    ensures store.triples == old(store.triples)
      + RelationTriples(NextRelationNode(old(store.triples), old(store.blankIndex)),
                        base, newNode, Iri(treePath), treeRelation, IsoDateTime(TimestampOf(newNode)))
    ensures store.blankIndex == FreshBlank(old(store.triples), old(store.blankIndex)) + 1
  {
    var relationNode := store.CreateBlankNode();
    var dateTime := IsoDateTime(TimestampOf(newNode));
    var added := RelationTriples(relationNode, base, newNode, Iri(treePath), treeRelation, dateTime);
    RelationTriplesAreNew(store.triples, relationNode, base, newNode, Iri(treePath), treeRelation, dateTime);
    AddQuads(store, added);
  }

  /** What parsing the JSON-LD Collection and root Node yields: four triples and no relation. */
  function CollectionTriples(shape: string, base: string): seq<Triple> {
    [ Triple(Iri(CollectionIri(base)), Iri(RDF_TYPE), Iri(LDES_EVENT_STREAM)),
      Triple(Iri(CollectionIri(base)), Iri(TREE_SHAPE), Iri(shape)),
      Triple(Iri(CollectionIri(base)), Iri(TREE_VIEW), Iri(RootIri(base))),
      Triple(Iri(RootIri(base)), Iri(RDF_TYPE), Iri(TREE_NODE_CLASS)) ]
  }

  /** The index graph a new log starts with. */
  function InitialGraph(shape: string, treePath: string, name: string, base: string): seq<Triple>
    requires IsTimestampName(name)
  {
    CollectionTriples(shape, base) + FirstRelation(treePath, name, base)
  }

  /**
   * `createEventStream`: the parsed Collection and root Node plus one
   * greater-than-or-equal relation to the first container.
   */
  method CreateEventStream(shape: string, treePath: string, firstNodeName: string, base: string)
    returns (store: Store)
    requires IsTimestampName(firstNodeName)
    ensures fresh(store) && store.triples == InitialGraph(shape, treePath, firstNodeName, base)
  {
    store := new Store(CollectionTriples(shape, base));
    assert !Uses(store.triples, Blank(0));
    AddRelation(store, treePath, TREE_GREATER_THAN_OR_EQUAL, firstNodeName, base);
  }

  /** Two different suffixes of one base give two different IRIs. */
  lemma SuffixesDiffer(base: string, a: string, b: string)
    requires |a| > 0 && |b| > 0 && a[0] != b[0]
    ensures base + a != base + b
  {
    assert (base + a)[|base|] == a[0] && (base + b)[|base|] == b[0];
  }

  /** Two IRIs whose endings differ `k` characters from the end are different. */
  lemma EndingsDiffer(a: string, x: string, b: string, y: string, k: nat)
    requires 0 < k <= |x| && k <= |y| && x[|x| - k] != y[|y| - k]
    ensures a + x != b + y
  {
    assert (a + x)[|a| + |x| - k] == x[|x| - k];
    if |a| + |x| == |b| + |y| {
      assert (b + y)[|b| + |y| - k] == y[|y| - k];
    }
  }

  /** A query no triple fits returns nothing. */
  lemma {:induction false} MatchNone(ts: seq<Triple>, s: Option<Term>, p: Option<Term>, o: Option<Term>)
    requires forall j :: 0 <= j < |ts| ==> !Fits(ts[j], s, p, o)
    ensures Match(ts, s, p, o) == []
  {
    if ts != [] {
      MatchNone(ts[1..], s, p, o);
    }
  }

  /** The single triple of `ts` that fits a pattern is all that the query returns. */
  lemma {:induction false} MatchOnly(ts: seq<Triple>, k: nat, s: Option<Term>, p: Option<Term>, o: Option<Term>)
    requires k < |ts| && Fits(ts[k], s, p, o)
    requires forall j :: 0 <= j < |ts| && j != k ==> !Fits(ts[j], s, p, o)
    ensures Match(ts, s, p, o) == [ts[k]]
  {
    if k == 0 {
      MatchNone(ts[1..], s, p, o);
    } else {
      MatchOnly(ts[1..], k - 1, s, p, o);
    }
  }

  /** The relation's own triples answer the queries on the root's relations and on the relation's type. */
  lemma RelationTriplesQueries(rel: Term, base: string, name: string, path: Term, relationType: string, dateTime: string)
    requires rel.Blank?
    ensures var rt := RelationTriples(rel, base, name, path, relationType, dateTime);
      && Match(rt, Some(Iri(RootIri(base))), Some(Iri(TREE_RELATION)), None) == [rt[0]]
      && Match(rt, Some(rel), Some(Iri(RDF_TYPE)), None) == [rt[1]]
  {
    var rt := RelationTriples(rel, base, name, path, relationType, dateTime);
    MatchOnly(rt, 0, Some(Iri(RootIri(base))), Some(Iri(TREE_RELATION)), None);
    MatchOnly(rt, 1, Some(rel), Some(Iri(RDF_TYPE)), None);
  }

  /** The relation's own triples answer the queries on its node and its path. */
  lemma RelationTriplesTargetQueries(rel: Term, base: string, name: string, path: Term, relationType: string, dateTime: string)
    requires rel.Blank?
    ensures var rt := RelationTriples(rel, base, name, path, relationType, dateTime);
      && Match(rt, Some(rel), Some(Iri(TREE_NODE)), None) == [rt[2]]
      && Match(rt, Some(rel), Some(Iri(TREE_PATH)), None) == [rt[3]]
  {
    var rt := RelationTriples(rel, base, name, path, relationType, dateTime);
    MatchOnly(rt, 2, Some(rel), Some(Iri(TREE_NODE)), None);
    MatchOnly(rt, 3, Some(rel), Some(Iri(TREE_PATH)), None);
  }

  /** Queries on an IRI other than the root Node find nothing among a relation's triples. */
  lemma RelationTriplesSkip(rel: Term, base: string, name: string, path: Term, relationType: string,
                            dateTime: string, subject: string, q: string)
    requires rel.Blank? && subject != RootIri(base)
    ensures Match(RelationTriples(rel, base, name, path, relationType, dateTime), Some(Iri(subject)), Some(Iri(q)), None) == []
  {
    MatchNone(RelationTriples(rel, base, name, path, relationType, dateTime), Some(Iri(subject)), Some(Iri(q)), None);
  }

  /** The first relation of a new log. */
  function FirstRelation(treePath: string, name: string, base: string): seq<Triple>
    requires IsTimestampName(name)
  {
    RelationTriples(Blank(0), base, name, Iri(treePath), TREE_GREATER_THAN_OR_EQUAL, IsoDateTime(TimestampOf(name)))
  }

  /** A query on the Collection's subject is answered by the parsed Collection alone. */
  lemma CollectionQuery(shape: string, treePath: string, name: string, base: string, dateTime: string, q: string, k: nat)
    requires k < 3 && q == [RDF_TYPE, TREE_SHAPE, TREE_VIEW][k]
    ensures var ct := CollectionTriples(shape, base);
      var rt := RelationTriples(Blank(0), base, name, Iri(treePath), TREE_GREATER_THAN_OR_EQUAL, dateTime);
      Match(ct + rt, Some(Iri(CollectionIri(base))), Some(Iri(q)), None) == [ct[k]]
  {
    var ct := CollectionTriples(shape, base);
    var rt := RelationTriples(Blank(0), base, name, Iri(treePath), TREE_GREATER_THAN_OR_EQUAL, dateTime);
    var subject := Some(Iri(CollectionIri(base)));
    SuffixesDiffer(base, "#Collection", "root.ttl");
    MatchAppend(ct, rt, subject, Some(Iri(q)), None);
    RelationTriplesSkip(Blank(0), base, name, Iri(treePath), TREE_GREATER_THAN_OR_EQUAL, dateTime, CollectionIri(base), q);
    MatchOnly(ct, k, subject, Some(Iri(q)), None);
  }

  /**
   * A new log's Collection: an EventStream whose shape is `shape` and whose
   * view is `root.ttl`.
   */
  lemma InitialGraphDescribesCollection(shape: string, treePath: string, name: string, base: string)
    requires IsTimestampName(name)
    ensures var g := InitialGraph(shape, treePath, name, base);
      var collection := Iri(CollectionIri(base));
      && Match(g, Some(collection), Some(Iri(RDF_TYPE)), None) == [Triple(collection, Iri(RDF_TYPE), Iri(LDES_EVENT_STREAM))]
      && Match(g, Some(collection), Some(Iri(TREE_SHAPE)), None) == [Triple(collection, Iri(TREE_SHAPE), Iri(shape))]
      && Match(g, Some(collection), Some(Iri(TREE_VIEW)), None) == [Triple(collection, Iri(TREE_VIEW), Iri(RootIri(base)))]
  {
    var dateTime := IsoDateTime(TimestampOf(name));
    CollectionQuery(shape, treePath, name, base, dateTime, RDF_TYPE, 0);
    CollectionQuery(shape, treePath, name, base, dateTime, TREE_SHAPE, 1);
    CollectionQuery(shape, treePath, name, base, dateTime, TREE_VIEW, 2);
  }

  /** Queries on the first relation's subject are answered by the relation's triples alone. */
  lemma FirstRelationQueries(shape: string, treePath: string, name: string, base: string)
    requires IsTimestampName(name)
    ensures var g := InitialGraph(shape, treePath, name, base);
      var rt := FirstRelation(treePath, name, base);
      && Match(g, Some(Blank(0)), Some(Iri(RDF_TYPE)), None) == [rt[1]]
      && Match(g, Some(Blank(0)), Some(Iri(TREE_NODE)), None) == [rt[2]]
      && Match(g, Some(Blank(0)), Some(Iri(TREE_PATH)), None) == [rt[3]]
  {
    RelationSubjectQueries(shape, treePath, name, base, IsoDateTime(TimestampOf(name)));
  }

  /** `FirstRelationQueries`, whatever the text of the relation's value. */
  lemma RelationSubjectQueries(shape: string, treePath: string, name: string, base: string, dateTime: string)
    ensures var rt := RelationTriples(Blank(0), base, name, Iri(treePath), TREE_GREATER_THAN_OR_EQUAL, dateTime);
      var g := CollectionTriples(shape, base) + rt;
      && Match(g, Some(Blank(0)), Some(Iri(RDF_TYPE)), None) == [rt[1]]
      && Match(g, Some(Blank(0)), Some(Iri(TREE_NODE)), None) == [rt[2]]
      && Match(g, Some(Blank(0)), Some(Iri(TREE_PATH)), None) == [rt[3]]
  {
    var ct := CollectionTriples(shape, base);
    var rt := RelationTriples(Blank(0), base, name, Iri(treePath), TREE_GREATER_THAN_OR_EQUAL, dateTime);
    var b := Some(Blank(0));
    RelationTriplesQueries(Blank(0), base, name, Iri(treePath), TREE_GREATER_THAN_OR_EQUAL, dateTime);
    RelationTriplesTargetQueries(Blank(0), base, name, Iri(treePath), TREE_GREATER_THAN_OR_EQUAL, dateTime);
    MatchAppend(ct, rt, b, Some(Iri(RDF_TYPE)), None);
    MatchNone(ct, b, Some(Iri(RDF_TYPE)), None);
    MatchAppend(ct, rt, b, Some(Iri(TREE_NODE)), None);
    MatchNone(ct, b, Some(Iri(TREE_NODE)), None);
    MatchAppend(ct, rt, b, Some(Iri(TREE_PATH)), None);
    MatchNone(ct, b, Some(Iri(TREE_PATH)), None);
  }

  /** Queries on the root Node of a new log. */
  lemma RootNodeQueries(shape: string, treePath: string, name: string, base: string)
    requires IsTimestampName(name)
    ensures var g := InitialGraph(shape, treePath, name, base);
      && Match(g, Some(Iri(RootIri(base))), Some(Iri(RDF_TYPE)), None) == [CollectionTriples(shape, base)[3]]
      && Match(g, Some(Iri(RootIri(base))), Some(Iri(TREE_RELATION)), None) == [FirstRelation(treePath, name, base)[0]]
  {
    RootQueries(shape, treePath, name, base, IsoDateTime(TimestampOf(name)));
  }

  /** `RootNodeQueries`, whatever the text of the relation's value. */
  lemma RootQueries(shape: string, treePath: string, name: string, base: string, dateTime: string)
    ensures var rt := RelationTriples(Blank(0), base, name, Iri(treePath), TREE_GREATER_THAN_OR_EQUAL, dateTime);
      var ct := CollectionTriples(shape, base);
      && Match(ct + rt, Some(Iri(RootIri(base))), Some(Iri(RDF_TYPE)), None) == [ct[3]]
      && Match(ct + rt, Some(Iri(RootIri(base))), Some(Iri(TREE_RELATION)), None) == [rt[0]]
  {
    var ct := CollectionTriples(shape, base);
    var rt := RelationTriples(Blank(0), base, name, Iri(treePath), TREE_GREATER_THAN_OR_EQUAL, dateTime);
    var root := Some(Iri(RootIri(base)));
    SuffixesDiffer(base, "#Collection", "root.ttl");
    MatchAppend(ct, rt, root, Some(Iri(RDF_TYPE)), None);
    MatchOnly(ct, 3, root, Some(Iri(RDF_TYPE)), None);
    MatchNone(rt, root, Some(Iri(RDF_TYPE)), None);
    MatchAppend(ct, rt, root, Some(Iri(TREE_RELATION)), None);
    MatchNone(ct, root, Some(Iri(TREE_RELATION)), None);
    RelationTriplesQueries(Blank(0), base, name, Iri(treePath), TREE_GREATER_THAN_OR_EQUAL, dateTime);
  }

  /**
   * A new log's root Node: typed tree:Node, with exactly one relation, of type
   * GreaterThanOrEqualToRelation whatever relation type the log was
   * configured with, whose path is `treePath` and whose node is the first
   * container.
   */
  lemma InitialGraphHasOneRelation(shape: string, treePath: string, name: string, base: string)
    requires IsTimestampName(name)
    ensures var g := InitialGraph(shape, treePath, name, base);
      var root := Iri(RootIri(base));
      && Match(g, Some(root), Some(Iri(RDF_TYPE)), None) == [Triple(root, Iri(RDF_TYPE), Iri(TREE_NODE_CLASS))]
      && Match(g, Some(root), Some(Iri(TREE_RELATION)), None) == [Triple(root, Iri(TREE_RELATION), Blank(0))]
      && Match(g, Some(Blank(0)), Some(Iri(RDF_TYPE)), None) == [Triple(Blank(0), Iri(RDF_TYPE), Iri(TREE_GREATER_THAN_OR_EQUAL))]
      && Match(g, Some(Blank(0)), Some(Iri(TREE_PATH)), None) == [Triple(Blank(0), Iri(TREE_PATH), Iri(treePath))]
      && Match(g, Some(Blank(0)), Some(Iri(TREE_NODE)), None) == [Triple(Blank(0), Iri(TREE_NODE), Iri(ContainerIri(base, name)))]
  {
    RootNodeQueries(shape, treePath, name, base);
    FirstRelationQueries(shape, treePath, name, base);
  }

  /**
   * `addRelation` hangs exactly one more relation off the root Node: querying
   * the root's relations afterwards gives the old ones followed by the new node.
   */
  lemma AddedRelationHangsOffRoot(ts: seq<Triple>, rel: Term, base: string, name: string, path: Term,
                                  relationType: string, dateTime: string)
    requires rel.Blank?
    ensures var root := Some(Iri(RootIri(base)));
      Match(ts + RelationTriples(rel, base, name, path, relationType, dateTime), root, Some(Iri(TREE_RELATION)), None)
      == Match(ts, root, Some(Iri(TREE_RELATION)), None) + [Triple(root.value, Iri(TREE_RELATION), rel)]
  {
    var added := RelationTriples(rel, base, name, path, relationType, dateTime);
    var root := Some(Iri(RootIri(base)));
    MatchAppend(ts, added, root, Some(Iri(TREE_RELATION)), None);
    MatchOnly(added, 0, root, Some(Iri(TREE_RELATION)), None);
  }

  /** The `tree:node` targets of a graph's relations, in the order they were stored. */
  function NodeTargets(ts: seq<Triple>): seq<Term> {
    var m := Match(ts, None, Some(Iri(TREE_NODE)), None);
    seq(|m|, i requires 0 <= i < |m| => m[i].o)
  }

  /** No two relations of a graph point at the same container. */
  predicate DistinctNodes(ts: seq<Triple>) {
    var n := NodeTargets(ts);
    forall i, j :: 0 <= i < j < |n| ==> n[i] != n[j]
  }

  /** Adding a relation adds its container, and nothing else, at the end of the `tree:node` targets. */
  lemma AddedRelationNodeTargets(ts: seq<Triple>, rel: Term, base: string, name: string, path: Term,
                                 relationType: string, dateTime: string)
    requires rel.Blank?
    ensures NodeTargets(ts + RelationTriples(rel, base, name, path, relationType, dateTime))
      == NodeTargets(ts) + [Iri(ContainerIri(base, name))]
  {
    var added := RelationTriples(rel, base, name, path, relationType, dateTime);
    var p := Some(Iri(TREE_NODE));
    MatchAppend(ts, added, None, p, None);
    MatchOnly(added, 2, None, p, None);
    var m := Match(ts, None, p, None);
    assert Match(ts + added, None, p, None) == m + [added[2]];
    var n := NodeTargets(ts + added);
    assert |n| == |NodeTargets(ts)| + 1;
    forall i | 0 <= i < |n|
      ensures n[i] == (NodeTargets(ts) + [Iri(ContainerIri(base, name))])[i]
    {
      if i < |m| {
        assert (m + [added[2]])[i] == m[i];
      } else {
        assert (m + [added[2]])[i] == added[2];
      }
    }
  }

  /**
   * After a relation is added, no two relations share a container exactly
   * when none did before and the new relation's container was not yet a
   * target.
   */
  lemma AddedRelationKeepsNodesDistinct(ts: seq<Triple>, rel: Term, base: string, name: string, path: Term,
                                        relationType: string, dateTime: string)
    requires rel.Blank?
    ensures DistinctNodes(ts + RelationTriples(rel, base, name, path, relationType, dateTime))
      <==> DistinctNodes(ts) && Iri(ContainerIri(base, name)) !in NodeTargets(ts)
  {
    var before := NodeTargets(ts);
    var c := Iri(ContainerIri(base, name));
    AddedRelationNodeTargets(ts, rel, base, name, path, relationType, dateTime);
    var n := before + [c];
    assert forall i :: 0 <= i < |before| ==> n[i] == before[i];
    assert n[|before|] == c;
    if DistinctNodes(ts) && c !in before {
      forall i, j | 0 <= i < j < |n| ensures n[i] != n[j] {
        if j == |before| {
          assert n[i] == before[i];
        }
      }
    }
    if c in before {
      var i :| 0 <= i < |before| && before[i] == c;
      assert n[i] == n[|before|];
    }
  }

  /**
   * Two `addRelation` calls with the same arguments give two different
   * relation nodes: the second allocation skips the node the first one used.
   */
  lemma RepeatedRelationsAreDistinct(ts: seq<Triple>, counter: nat, base: string, name: string, path: Term,
                                     relationType: string, dateTime: string, counter2: nat)
    ensures var first := NextRelationNode(ts, counter);
      var after := ts + RelationTriples(first, base, name, path, relationType, dateTime);
      NextRelationNode(after, counter2) != first
  {
    var first := NextRelationNode(ts, counter);
    var after := ts + RelationTriples(first, base, name, path, relationType, dateTime);
    assert TripleUses(after[|ts|], first);
  }
}
