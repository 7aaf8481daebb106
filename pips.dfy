/**
  Policy information points: the enrichment step at the top of the handler, where
  every configured PIP, in registration order, populates the request in place.
*/
module Pips {
  import opened AuthzModel

  /**
    What populateRequest does to the request it is given: it reports whether it applied
    and leaves the request as it changed it, or it throws, leaving the request as far
    as it got.
  */
  datatype PipOutcome = Populated(applied: bool, request: Request) | PipFailed(request: Request)

  datatype Pip = Pip(id: string, populateRequest: Request -> PipOutcome)

  /**
    The state after running some PIPs: the request as they left it, the ids of the PIPs
    invoked and of those that applied (both in order), and whether one of them threw.
  */
  datatype PipsRun = PipsRun(request: Request, invoked: seq<string>, applied: seq<string>, failed: bool)

  function PipIds(pips: seq<Pip>): (ids: seq<string>)
    ensures |ids| == |pips| && forall i :: 0 <= i < |pips| ==> ids[i] == pips[i].id
  {
    seq(|pips|, i requires 0 <= i < |pips| => pips[i].id)
  }

  /**
    The for-loop over the PIPs: each one populates the request the previous ones left,
    whether or not they applied; a PIP that throws ends the loop.
  */
  function RunPips(pips: seq<Pip>, request: Request): (run: PipsRun)
    ensures |run.applied| <= |run.invoked| <= |pips|
    ensures !run.failed ==> |run.invoked| == |pips|
    decreases |pips|
  {
    if |pips| == 0 then PipsRun(request, [], [], false)
    else
      var prior := RunPips(pips[..|pips| - 1], request);
      if prior.failed then prior else Step(prior, pips[|pips| - 1])
  }

  /**
    Every PIP is invoked once, in list order, until one throws: the invoked ids are
    those of a prefix of the list, the whole list unless a PIP threw, and the PIPs that
    applied are among those invoked.
  */
  lemma {:induction false} PipsInvokedInOrder(pips: seq<Pip>, request: Request)
    ensures var run := RunPips(pips, request);
      && |run.invoked| <= |pips|
      && run.invoked == PipIds(pips[..|run.invoked|])
      && (!run.failed ==> run.invoked == PipIds(pips))
      && (run.failed ==> |run.invoked| > 0)
      && (forall id :: id in run.applied ==> id in run.invoked)
    decreases |pips|
  {
    if |pips| > 0 {
      var shorter := pips[..|pips| - 1];
      PipsInvokedInOrder(shorter, request);
      var prior := RunPips(shorter, request);
      assert shorter[..|prior.invoked|] == pips[..|prior.invoked|];
      if !prior.failed {
        assert pips[..|prior.invoked| + 1] == pips;
      }
    }
  }

  /** The state after running a second list of PIPs from where the first list left off. */
  function Combine(a: PipsRun, b: PipsRun): PipsRun
  {
    PipsRun(b.request, a.invoked + b.invoked, a.applied + b.applied, b.failed)
  }

  /**
    Running two lists of PIPs one after the other is running their concatenation: later
    PIPs see exactly what earlier ones left, and nothing after a throwing PIP runs.
  */
  lemma {:induction false} RunPipsAppend(first: seq<Pip>, second: seq<Pip>, request: Request)
    ensures var a := RunPips(first, request);
      RunPips(first + second, request) == if a.failed then a else Combine(a, RunPips(second, a.request))
    decreases |second|
  {
    var a := RunPips(first, request);
    if |second| == 0 {
      assert first + second == first;
    } else {
      var all := first + second;
      var shorter := second[..|second| - 1];
      var pip := second[|second| - 1];
      RunPipsAppend(first, shorter, request);
      assert all[..|all| - 1] == first + shorter;
      assert all[|all| - 1] == pip;
      var prior := RunPips(first + shorter, request);
      assert RunPips(all, request) == if prior.failed then prior else Step(prior, pip);
      if !a.failed {
        var b := RunPips(shorter, a.request);
        assert prior == Combine(a, b);
        assert second[..|second| - 1] == shorter;
        assert RunPips(second, a.request) == if b.failed then b else Step(b, pip);
        if !b.failed {
          StepAfterCombine(a, b, pip);
        }
      }
    }
  }

  /** A step after a combined run is the combination with the step. */
  lemma StepAfterCombine(a: PipsRun, b: PipsRun, pip: Pip)
    ensures Step(Combine(a, b), pip) == Combine(a, Step(b, pip))
  {
    assert (a.invoked + b.invoked) + [pip.id] == a.invoked + (b.invoked + [pip.id]);
    assert (a.applied + b.applied) + [pip.id] == a.applied + (b.applied + [pip.id]);
  }

  /** One iteration of the loop: the PIP populates the request the earlier ones left. */
  function Step(prior: PipsRun, pip: Pip): (next: PipsRun)
    ensures next.invoked == prior.invoked + [pip.id]
    ensures next.request == pip.populateRequest(prior.request).request
    ensures next.failed <==> pip.populateRequest(prior.request).PipFailed?
    ensures next.applied == prior.applied || next.applied == prior.applied + [pip.id]
    ensures |next.applied| > |prior.applied| <==>
      pip.populateRequest(prior.request).Populated? && pip.populateRequest(prior.request).applied
  {
    match pip.populateRequest(prior.request)
    case Populated(applied, next) =>
      PipsRun(next, prior.invoked + [pip.id], if applied then prior.applied + [pip.id] else prior.applied, false)
    case PipFailed(partial) =>
      PipsRun(partial, prior.invoked + [pip.id], prior.applied, true)
  }
}
