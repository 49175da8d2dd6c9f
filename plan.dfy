// What a multi-step remote operation does: it sends its writes in order and
// stops at the first one the pod refuses.
module Plan {
  import opened Results
  import opened Pod

  /**
   * The steps are sent in plan order: every step up to and including the
   * first rejected one is sent, and no later step is.
   */
  lemma {:induction false} IssueSendsUpToFirstRejection(s: Server, plan: seq<Step>)
    requires NoReads(plan)
    ensures var n := FirstRejected(s.responses, |s.issued|, plan);
      Issue(s, plan).0.issued == s.issued + Requests(plan)[..if n < |plan| then n + 1 else n]
    decreases |plan|
  {
    if plan != [] {
      var r0 := Respond(s, plan[0].request);
      var s1 := r0.1;
      if r0.0.status in plan[0].accepted {
        assert Issue(s, plan) == Issue(s1, plan[1..]);
        IssueSendsUpToFirstRejection(s1, plan[1..]);
        var m := FirstRejected(s.responses, |s.issued| + 1, plan[1..]);
        assert FirstRejected(s.responses, |s.issued|, plan) == m + 1;
        var sent := if m < |plan| - 1 then m + 1 else m;
        RequestsPrefix(s.issued, plan, sent);
      } else {
        assert Issue(s, plan).0 == s1;
        RequestsPrefix(s.issued, plan, 0);
      }
    }
  }

  /**
   * Issuing a plan only appends to the log, always sends the plan's first
   * step when there is one, and leaves the pod's answers to come as they were.
   */
  lemma {:induction false} IssueExtendsLog(s: Server, plan: seq<Step>)
    ensures var log := Issue(s, plan).0.issued;
      && |log| >= |s.issued| && log[..|s.issued|] == s.issued
      && (plan != [] ==> |log| > |s.issued| && log[|s.issued|] == plan[0].request)
    ensures Issue(s, plan).0.responses == s.responses
    decreases |plan|
  {
    if plan != [] {
      var s1 := Respond(s, plan[0].request).1;
      IssueExtendsLog(s1, plan[1..]);
      var log := Issue(s, plan).0.issued;
      assert log[..|s1.issued|] == s1.issued;
      assert log[..|s.issued|] == s1.issued[..|s.issued|];
      assert log[|s.issued|] == s1.issued[|s.issued|];
    }
  }

  /** Issuing two plans one after the other is issuing their concatenation. */
  lemma {:induction false} IssueAppend(s: Server, p1: seq<Step>, p2: seq<Step>)
    ensures Issue(s, p1 + p2)
      == if Issue(s, p1).1.None? then Issue(Issue(s, p1).0, p2) else Issue(s, p1)
    decreases |p1|
  {
    if p1 == [] {
      assert p1 + p2 == p2;
    } else {
      assert (p1 + p2)[0] == p1[0] && (p1 + p2)[1..] == p1[1..] + p2;
      var s1 := Respond(s, p1[0].request).1;
      IssueAppend(s1, p1[1..], p2);
    }
  }

  /** A plan that went through without a refusal was accepted at every step. */
  lemma PhaseAccepted(s: Server, plan: seq<Step>)
    requires NoReads(plan) && Issue(s, plan).1 == None
    ensures AllAccepted(s, plan)
  {
    IssueReportsFirstRejection(s, plan);
  }

  /** Concatenated plans are writes, and take effect when accepted, when their parts are and do. */
  lemma PlanAppendWrites(p1: seq<Step>, p2: seq<Step>)
    requires NoReads(p1) && NoReads(p2) && AcceptsOnlySuccess(p1) && AcceptsOnlySuccess(p2)
    ensures NoReads(p1 + p2) && AcceptsOnlySuccess(p1 + p2)
  {
    assert forall i :: 0 <= i < |p1 + p2| ==> (p1 + p2)[i] == if i < |p1| then p1[i] else p2[i - |p1|];
  }

  lemma RequestsPrefix(log: seq<Request>, plan: seq<Step>, k: nat)
    requires k < |plan|
    ensures log + [plan[0].request] + Requests(plan[1..])[..k] == log + Requests(plan)[..k + 1]
  {
    assert Requests(plan)[..k + 1] == [plan[0].request] + Requests(plan[1..])[..k];
  }

  /**
   * The operation fails exactly when some step is rejected, and then reports
   * the first such step with its status.
   */
  lemma {:induction false} IssueReportsFirstRejection(s: Server, plan: seq<Step>)
    requires NoReads(plan)
    ensures var n := FirstRejected(s.responses, |s.issued|, plan);
      Issue(s, plan).1 == if n == |plan| then None else Some((plan[n].request, AnswerAt(s.responses, |s.issued| + n)))
    decreases |plan|
  {
    if plan != [] {
      var r0 := Respond(s, plan[0].request);
      if r0.0.status in plan[0].accepted {
        IssueReportsFirstRejection(r0.1, plan[1..]);
      }
    }
  }

  /** A plan whose every step is accepted sends all its steps. */
  lemma AllAcceptedSendsAll(s: Server, plan: seq<Step>)
    requires NoReads(plan)
    requires forall i :: 0 <= i < |plan| ==> AnswerAt(s.responses, |s.issued| + i) in plan[i].accepted
    ensures Issue(s, plan).1 == None && Issue(s, plan).0.issued == s.issued + Requests(plan)
  {
    IssueSendsUpToFirstRejection(s, plan);
    IssueReportsFirstRejection(s, plan);
    var n := FirstRejected(s.responses, |s.issued|, plan);
    assert n == |plan|;
    assert Requests(plan)[..n] == Requests(plan);
  }

  /** A plan none of whose steps stores a resource at `iri` leaves that resource as it was. */
  lemma {:induction false} IssueKeepsUntouched(s: Server, plan: seq<Step>, iri: string)
    requires forall i :: 0 <= i < |plan| ==> ResourceTarget(plan[i].request) != Some(iri)
    ensures ResourceAt(Issue(s, plan).0, iri) == ResourceAt(s, iri)
    decreases |plan|
  {
    if plan != [] {
      var r0 := Respond(s, plan[0].request);
      assert ResourceAt(r0.1, iri) == ResourceAt(s, iri);
      if r0.0.status in plan[0].accepted {
        IssueKeepsUntouched(r0.1, plan[1..], iri);
      }
    }
  }

  /**
   * When every step is accepted, a resource holds what the last step that
   * stores it wrote.
   */
  lemma {:induction false} IssueLastWriteWins(s: Server, plan: seq<Step>, k: nat, iri: string)
    requires NoReads(plan) && AcceptsOnlySuccess(plan) && AllAccepted(s, plan)
    requires k < |plan| && ResourceTarget(plan[k].request) == Some(iri)
    requires forall i :: k < i < |plan| ==> ResourceTarget(plan[i].request) != Some(iri)
    ensures ResourceAt(Issue(s, plan).0, iri).Some?
    ensures Wrote(plan[k].request, ResourceAt(Issue(s, plan).0, iri).value)
    decreases |plan|
  {
    var r0 := Respond(s, plan[0].request);
    assert AnswerAt(s.responses, |s.issued| + 0) in plan[0].accepted;
    assert Issue(s, plan) == Issue(r0.1, plan[1..]);
    assert AllAccepted(r0.1, plan[1..]) by {
      forall i | 0 <= i < |plan| - 1
        ensures AnswerAt(r0.1.responses, |r0.1.issued| + i) in plan[1..][i].accepted
      {
        assert AnswerAt(s.responses, |s.issued| + (i + 1)) in plan[i + 1].accepted;
      }
    }
    if k == 0 {
      assert ResourceAt(r0.1, iri).Some? && Wrote(plan[0].request, ResourceAt(r0.1, iri).value);
      IssueKeepsUntouched(r0.1, plan[1..], iri);
    } else {
      IssueLastWriteWins(r0.1, plan[1..], k - 1, iri);
    }
  }

  /** A plan none of whose steps sets `rel` on `target` leaves that Link header as it was. */
  lemma {:induction false} IssueKeepsLink(s: Server, plan: seq<Step>, target: string, rel: string)
    requires forall i :: 0 <= i < |plan| ==> !(plan[i].request.PutLink? && plan[i].request.target == target && plan[i].request.rel == rel)
    ensures LinkOf(Issue(s, plan).0, target, rel) == LinkOf(s, target, rel)
    decreases |plan|
  {
    if plan != [] {
      var r0 := Respond(s, plan[0].request);
      assert LinkOf(r0.1, target, rel) == LinkOf(s, target, rel);
      if r0.0.status in plan[0].accepted {
        IssueKeepsLink(r0.1, plan[1..], target, rel);
      }
    }
  }

  /** When every step is accepted, a Link header holds what the last step that sets it wrote. */
  lemma {:induction false} IssueLastLinkWins(s: Server, plan: seq<Step>, k: nat)
    requires NoReads(plan) && AcceptsOnlySuccess(plan) && AllAccepted(s, plan)
    requires k < |plan| && plan[k].request.PutLink?
    requires var w := plan[k].request;
      forall i :: k < i < |plan| ==> !(plan[i].request.PutLink? && plan[i].request.target == w.target && plan[i].request.rel == w.rel)
    ensures var w := plan[k].request;
      LinkOf(Issue(s, plan).0, w.target, w.rel) == Some(w.href)
    decreases |plan|
  {
    var w := plan[k].request;
    var r0 := Respond(s, plan[0].request);
    assert AnswerAt(s.responses, |s.issued| + 0) in plan[0].accepted;
    assert Issue(s, plan) == Issue(r0.1, plan[1..]);
    assert AllAccepted(r0.1, plan[1..]) by {
      forall i | 0 <= i < |plan| - 1
        ensures AnswerAt(r0.1.responses, |r0.1.issued| + i) in plan[1..][i].accepted
      {
        assert AnswerAt(s.responses, |s.issued| + (i + 1)) in plan[i + 1].accepted;
      }
    }
    if k == 0 {
      assert LinkOf(r0.1, w.target, w.rel) == Some(w.href);
      IssueKeepsLink(r0.1, plan[1..], w.target, w.rel);
    } else {
      IssueLastLinkWins(r0.1, plan[1..], k - 1);
    }
  }
}
