// RDF terms, triples and the in-memory triple store the log's code fills and
// queries (the n3 `Store`): pattern queries, blank-node allocation and
// set-like insertion.
module Rdf {
  import opened Results
  import opened Numbers

  datatype Term =
    | Iri(iri: string)
    | Blank(id: nat)
    | Literal(lexical: string, dataType: string)

  datatype Triple = Triple(s: Term, p: Term, o: Term)

  /** The store's string identifier of a term (`term.id`). */
  function TermId(t: Term): string {
    match t
    case Iri(iri) => iri
    case Blank(n) => "_:b" + DecimalString(n)
    case Literal(lexical, dataType) => "\"" + lexical + "\"^^" + dataType
  }

  /** A triple fits a pattern when it agrees with every position the pattern fixes. */
  predicate Fits(x: Triple, s: Option<Term>, p: Option<Term>, o: Option<Term>) {
    (s.None? || x.s == s.value) && (p.None? || x.p == p.value) && (o.None? || x.o == o.value)
  }

  /** `store.getQuads(s, p, o, null)`: the fitting triples, in store order. */
  function Match(ts: seq<Triple>, s: Option<Term>, p: Option<Term>, o: Option<Term>): (r: seq<Triple>)
    ensures |r| <= |ts|
  {
    if ts == [] then []
    else (if Fits(ts[0], s, p, o) then [ts[0]] else []) + Match(ts[1..], s, p, o)
  }

  /** A query returns exactly the stored triples that fit the pattern. */
  lemma {:induction false} MatchMembers(ts: seq<Triple>, s: Option<Term>, p: Option<Term>, o: Option<Term>)
    ensures forall x :: x in Match(ts, s, p, o) <==> x in ts && Fits(x, s, p, o)
  {
    if ts != [] {
      MatchMembers(ts[1..], s, p, o);
      assert forall x :: x in ts <==> x == ts[0] || x in ts[1..];
    }
  }

  /** The query with no fixed position returns the whole store. */
  lemma {:induction false} MatchAll(ts: seq<Triple>)
    ensures Match(ts, None, None, None) == ts
  {
    if ts != [] {
      MatchAll(ts[1..]);
    }
  }

  /** Querying a concatenation queries each part in turn. */
  lemma {:induction false} MatchAppend(xs: seq<Triple>, ys: seq<Triple>, s: Option<Term>, p: Option<Term>, o: Option<Term>)
    ensures Match(xs + ys, s, p, o) == Match(xs, s, p, o) + Match(ys, s, p, o)
  {
    if xs == [] {
      assert xs + ys == ys;
    } else {
      assert (xs + ys)[0] == xs[0] && (xs + ys)[1..] == xs[1..] + ys;
      MatchAppend(xs[1..], ys, s, p, o);
      var head := if Fits(xs[0], s, p, o) then [xs[0]] else [];
      assert Match(xs + ys, s, p, o) == head + (Match(xs[1..], s, p, o) + Match(ys, s, p, o));
      assert Match(xs, s, p, o) == head + Match(xs[1..], s, p, o);
    }
  }

  predicate TripleUses(x: Triple, t: Term) {
    x.s == t || x.p == t || x.o == t
  }

  /** The term occurs somewhere in the triples. */
  predicate Uses(ts: seq<Triple>, t: Term) {
    exists i :: 0 <= i < |ts| && TripleUses(ts[i], t)
  }

  /** A bound above every blank-node number the triples use. */
  function BlankBound(ts: seq<Triple>): (n: nat)
    ensures forall k :: k >= n ==> !Uses(ts, Blank(k))
  {
    if ts == [] then 0
    else
      var x := ts[0];
      var here := Max(Max(NextBlank(x.s), NextBlank(x.p)), NextBlank(x.o));
      var rest := BlankBound(ts[1..]);
      assert forall k :: k >= Max(here, rest) && Uses(ts, Blank(k)) ==> Uses(ts[1..], Blank(k)) by {
        forall k | k >= Max(here, rest) && Uses(ts, Blank(k)) ensures Uses(ts[1..], Blank(k)) {
          var i :| 0 <= i < |ts| && TripleUses(ts[i], Blank(k));
          assert i != 0;
          assert TripleUses(ts[1..][i - 1], Blank(k));
        }
      }
      Max(here, rest)
  }

  function NextBlank(t: Term): nat {
    if t.Blank? then t.id + 1 else 0
  }

  function Max(a: nat, b: nat): nat {
    if a < b then b else a
  }

  /**
   * The blank node the store hands out when its counter stands at `from`:
   * the first number at or after `from` that the triples do not use.
   */
  function FreshBlank(ts: seq<Triple>, from: nat): (n: nat)
    ensures n >= from && !Uses(ts, Blank(n))
    ensures forall k :: from <= k < n ==> Uses(ts, Blank(k))
    decreases if from < BlankBound(ts) then BlankBound(ts) - from else 0
  {
    if Uses(ts, Blank(from)) then FreshBlank(ts, from + 1) else from
  }

  /** A triple store: a set of triples kept in insertion order, and a blank-node counter. */
  class Store {
    var triples: seq<Triple>
    var blankIndex: nat

    /** The store built from a parsed document. */
    constructor (parsed: seq<Triple>)
      ensures triples == parsed && blankIndex == 0
    {
      triples := parsed;
      blankIndex := 0;
    }

    function GetQuads(s: Option<Term>, p: Option<Term>, o: Option<Term>): seq<Triple>
      reads this
    {
      Match(triples, s, p, o)
    }

    /** `createBlankNode()`: skips every counter value whose blank node is already in use. */
    method CreateBlankNode() returns (b: Term)
      modifies this
      ensures triples == old(triples)
      ensures b == Blank(FreshBlank(old(triples), old(blankIndex))) && blankIndex == b.id + 1
    {
      var n := blankIndex;
      blankIndex := blankIndex + 1;
      while Uses(triples, Blank(n))
        invariant n >= old(blankIndex) && blankIndex == n + 1 && triples == old(triples)
        invariant FreshBlank(triples, n) == FreshBlank(triples, old(blankIndex))
        decreases BlankBound(triples) - n
      {
        n := blankIndex;
        blankIndex := blankIndex + 1;
      }
      b := Blank(n);
    }

    /** `addQuad(x)`: a triple already present is not added twice. */
    method AddQuad(x: Triple)
      modifies this
      ensures triples == if x in old(triples) then old(triples) else old(triples) + [x]
      ensures blankIndex == old(blankIndex)
    {
      if x !in triples {
        triples := triples + [x];
      }
    }
  }
}
