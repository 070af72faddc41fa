/** The middleware pipeline run before every request (`__middlewares` of
    both clients). A method instance is an object with an identity; a
    middleware maps an object to an object or raises, and the client checks
    each step by comparing identities. */
module Pipeline {
  import opened Wrappers
  import opened Values
  import opened Errors
  import opened Methods

  /** A method instance and its object identity. */
  datatype Obj<R> = Obj(ref: nat, instance: Method<R>)

  /** A middleware: the object it returns, or the exception it raises. */
  type Middleware<!R> = Obj<R> -> Result<Obj<R>, Cause>

  /** Copying middlewares must return a different object; in-place ones the
      object they were given. */
  datatype Mode = Copying | InPlace

  predicate StepOk<R>(mode: Mode, before: Obj<R>, after: Obj<R>)
  {
    match mode
    case Copying => after.ref != before.ref
    case InPlace => after.ref == before.ref
  }

  function ModeViolation(mode: Mode): Error
  {
    match mode
    case Copying => AssertionError(CopyReturnedSameObject)
    case InPlace => AssertionError(InPlaceReturnedOtherObject)
  }

  /** One middleware list, in order, each step checked against its own
      input; an exception a middleware raises propagates unwrapped. */
  function RunMode<R>(mode: Mode, mws: seq<Middleware<R>>, o: Obj<R>): (r: Result<Obj<R>, Error>)
    ensures r.Failure? ==> r.error == ModeViolation(mode) || r.error.MiddlewareRaised?
    ensures mode == InPlace && r.Success? ==> r.value.ref == o.ref
    decreases |mws|
  {
    if |mws| == 0 then Success(o)
    else
      match mws[0](o)
      case Failure(cause) => Failure(MiddlewareRaised(cause))
      case Success(next) =>
        if !StepOk(mode, o, next) then Failure(ModeViolation(mode))
        else RunMode(mode, mws[1..], next)
  }

  /** The objects the middlewares produce when nothing is checked: the input,
      then each step's output, up to the first step that raises. */
  function Chain<R>(mws: seq<Middleware<R>>, o: Obj<R>): (c: seq<Obj<R>>)
    ensures 1 <= |c| <= |mws| + 1
    decreases |mws|
  {
    if |mws| == 0 then [o]
    else
      match mws[0](o)
      case Failure(_) => [o]
      case Success(next) => [o] + Chain(mws[1..], next)
  }

  /** The last object of the unchecked chain. */
  function ChainEnd<R>(mws: seq<Middleware<R>>, o: Obj<R>): Obj<R>
  {
    var c := Chain(mws, o);
    c[|c| - 1]
  }

  /** Every step of a chain of objects respects the mode. */
  predicate StepsOk<R>(mode: Mode, c: seq<Obj<R>>)
  {
    forall i :: 0 <= i < |c| - 1 ==> StepOk(mode, c[i], c[i + 1])
  }

  /** No step of the unchecked chain raises, and every step respects the mode. */
  predicate Conforms<R>(mode: Mode, mws: seq<Middleware<R>>, o: Obj<R>)
  {
    var c := Chain(mws, o);
    |c| == |mws| + 1 && StepsOk(mode, c)
  }

  /** The checked run succeeds exactly when every step conforms, and then
      yields the last object of the chain. */
  lemma {:induction false} RunModeIsCheckedChain<R>(mode: Mode, mws: seq<Middleware<R>>, o: Obj<R>)
    ensures RunMode(mode, mws, o).Success? <==> Conforms(mode, mws, o)
    ensures RunMode(mode, mws, o).Success? ==> RunMode(mode, mws, o).value == Chain(mws, o)[|mws|]
    decreases |mws|
  {
    if |mws| > 0 && mws[0](o).Success? {
      var next := mws[0](o).value;
      var c := Chain(mws, o);
      var rest := Chain(mws[1..], next);
      assert c == [o] + rest;
      assert c[0] == o && c[1] == next;
      RunModeIsCheckedChain(mode, mws[1..], next);
      if StepOk(mode, o, next) {
        if Conforms(mode, mws[1..], next) {
          forall i | 0 <= i < |mws|
            ensures StepOk(mode, c[i], c[i + 1])
          {
            if i > 0 {
              assert c[i] == rest[i - 1] && c[i + 1] == rest[i];
            }
          }
        } else if |rest| == |mws| {
          var j :| 0 <= j < |mws| - 1 && !StepOk(mode, rest[j], rest[j + 1]);
          assert c[j + 1] == rest[j] && c[j + 2] == rest[j + 1];
        }
      }
    }
  }

  /** Which exception a failed list raises: the identity assertion when some
      step of the unchecked chain violates the mode, and otherwise the
      exception of the middleware at which the chain stopped. */
  lemma {:induction false} RunModeFailureCause<R>(mode: Mode, mws: seq<Middleware<R>>, o: Obj<R>)
    ensures RunMode(mode, mws, o).Failure? && !StepsOk(mode, Chain(mws, o)) ==>
      RunMode(mode, mws, o).error == ModeViolation(mode)
    ensures RunMode(mode, mws, o).Failure? && StepsOk(mode, Chain(mws, o)) ==>
      var k := |Chain(mws, o)| - 1;
      && k < |mws|
      && mws[k](ChainEnd(mws, o)).Failure?
      && RunMode(mode, mws, o).error == MiddlewareRaised(mws[k](ChainEnd(mws, o)).error)
    decreases |mws|
  {
    if |mws| > 0 && mws[0](o).Success? {
      var next := mws[0](o).value;
      var c := Chain(mws, o);
      var rest := Chain(mws[1..], next);
      assert c == [o] + rest;
      assert c[0] == o && c[1] == next;
      if StepOk(mode, o, next) {
        RunModeFailureCause(mode, mws[1..], next);
        assert RunMode(mode, mws, o) == RunMode(mode, mws[1..], next);
        assert c[|c| - 1] == rest[|rest| - 1];
        if |c| - 1 < |mws| {
          assert mws[|c| - 1] == mws[1..][|rest| - 1];
        }
        if StepsOk(mode, rest) {
          forall i | 0 <= i < |c| - 1
            ensures StepOk(mode, c[i], c[i + 1])
          {
            if i > 0 {
              assert c[i] == rest[i - 1] && c[i + 1] == rest[i];
            }
          }
        } else {
          var j :| 0 <= j < |rest| - 1 && !StepOk(mode, rest[j], rest[j + 1]);
          assert c[j + 1] == rest[j] && c[j + 2] == rest[j + 1];
        }
      }
    }
  }

  /** `__middlewares`: copying middlewares in order, then in-place ones. */
  function Apply<R>(copying: seq<Middleware<R>>, inPlace: seq<Middleware<R>>, o: Obj<R>): (r: Result<Obj<R>, Error>)
    ensures r.Failure? ==>
      r.error in {AssertionError(CopyReturnedSameObject), AssertionError(InPlaceReturnedOtherObject)} ||
      r.error.MiddlewareRaised?
  {
    var copied :- RunMode(Copying, copying, o);
    RunMode(InPlace, inPlace, copied)
  }

  /** `__middlewares` as the two loops it is: each step checked against its
      own input, stopping at the first violation. */
  method RunMiddlewares<R>(copying: seq<Middleware<R>>, inPlace: seq<Middleware<R>>, caller: Obj<R>)
    returns (r: Result<Obj<R>, Error>)
    ensures r == Apply(copying, inPlace, caller)
  {
    var current := caller;
    var i := 0;
    while i < |copying|
      invariant 0 <= i <= |copying|
      invariant RunMode(Copying, copying, caller) == RunMode(Copying, copying[i..], current)
    {
      assert copying[i..][1..] == copying[i + 1..];
      var step := copying[i](current);
      if step.Failure? {
        return Failure(MiddlewareRaised(step.error));
      }
      var next := step.value;
      if next.ref == current.ref {
        return Failure(AssertionError(CopyReturnedSameObject));
      }
      current := next;
      i := i + 1;
    }
    assert copying[i..] == [];
    ghost var copied := current;
    var j := 0;
    while j < |inPlace|
      invariant 0 <= j <= |inPlace|
      invariant RunMode(InPlace, inPlace, copied) == RunMode(InPlace, inPlace[j..], current)
    {
      assert inPlace[j..][1..] == inPlace[j + 1..];
      var step := inPlace[j](current);
      if step.Failure? {
        return Failure(MiddlewareRaised(step.error));
      }
      var next := step.value;
      if next.ref != current.ref {
        return Failure(AssertionError(InPlaceReturnedOtherObject));
      }
      current := next;
      j := j + 1;
    }
    assert inPlace[j..] == [];
    return Success(current);
  }

  /** The pipeline succeeds exactly when every copying step returned a new
      object and, from the last copy on, every in-place step the same one; it
      then dispatches the end of the in-place chain. */
  lemma ApplyIsCheckedChains<R>(copying: seq<Middleware<R>>, inPlace: seq<Middleware<R>>, o: Obj<R>)
    ensures Apply(copying, inPlace, o).Success? <==>
      Conforms(Copying, copying, o) && Conforms(InPlace, inPlace, ChainEnd(copying, o))
    ensures Apply(copying, inPlace, o).Success? ==>
      Apply(copying, inPlace, o).value == ChainEnd(inPlace, ChainEnd(copying, o))
  {
    RunModeIsCheckedChain(Copying, copying, o);
    RunModeIsCheckedChain(InPlace, inPlace, ChainEnd(copying, o));
  }

  /** With no middleware at all, the caller's object is dispatched as it is. */
  lemma NoMiddlewareDispatchesCaller<R>(o: Obj<R>)
    ensures Apply([], [], o) == Success(o)
  {
  }

  /** With only in-place middlewares, a successful pipeline dispatches the
      caller's own object, so the caller sees every change. */
  lemma InPlaceOnlyDispatchesCaller<R>(inPlace: seq<Middleware<R>>, o: Obj<R>)
    requires Apply([], inPlace, o).Success?
    ensures Apply([], inPlace, o).value.ref == o.ref
  {
  }

  /** A middleware registered in the wrong list aborts the pipeline. */
  lemma MisplacedMiddlewareAborts<R>(copying: seq<Middleware<R>>, inPlace: seq<Middleware<R>>, o: Obj<R>)
    ensures |copying| > 0 && copying[0](o).Success? && copying[0](o).value.ref == o.ref ==>
      Apply(copying, inPlace, o) == Failure(AssertionError(CopyReturnedSameObject))
    ensures |copying| == 0 && |inPlace| > 0 && inPlace[0](o).Success? && inPlace[0](o).value.ref != o.ref ==>
      Apply(copying, inPlace, o) == Failure(AssertionError(InPlaceReturnedOtherObject))
  {
  }

  /** An exception raised by the first middleware run reaches the caller
      unwrapped. */
  lemma RaisingMiddlewareAborts<R>(copying: seq<Middleware<R>>, inPlace: seq<Middleware<R>>, o: Obj<R>)
    ensures |copying| > 0 && copying[0](o).Failure? ==>
      Apply(copying, inPlace, o) == Failure(MiddlewareRaised(copying[0](o).error))
    ensures |copying| == 0 && |inPlace| > 0 && inPlace[0](o).Failure? ==>
      Apply(copying, inPlace, o) == Failure(MiddlewareRaised(inPlace[0](o).error))
  {
  }

  /** A copying middleware: a new object with the same attributes. */
  function CopyOf<R>(x: Obj<R>): Result<Obj<R>, Cause>
  {
    Success(Obj(x.ref + 1, x.instance))
  }

  /** A copying middleware that hands back the object with identity 0. */
  function BackToFirst<R>(x: Obj<R>): Result<Obj<R>, Cause>
  {
    Success(Obj(0, x.instance))
  }

  /** A copying step is only compared with its own input, so a later copying
      middleware may hand back the caller's object and still pass. */
  lemma CopyingMayReturnCaller<R>(m: Method<R>)
    ensures Apply([CopyOf, BackToFirst], [], Obj(0, m)) == Success(Obj(0, m))
  {
    var mws: seq<Middleware<R>> := [CopyOf, BackToFirst];
    var o := Obj(0, m);
    var copy := Obj(1, m);
    assert mws[0](o) == Success(copy);
    assert mws[1..] == [BackToFirst];
    assert mws[1](copy) == Success(o);
    assert RunMode(Copying, mws[1..][1..], o) == Success(o);
    assert RunMode(Copying, mws[1..], copy) == Success(o);
    assert RunMode(Copying, mws, o) == Success(o);
  }
}
