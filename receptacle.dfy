/** A receptacle: the proxy through which a component calls out. Calls go through a chain
    of interceptors, each forwarding to the next, and the last one forwards to the
    receptacle context manager. */
module Receptacles {
  import opened DynrecTypes

  /** Where an interceptor forwards a call: nowhere yet (null), the next interceptor, or
      the receptacle context manager. */
  datatype Link = Unset | Next(interceptor: Interceptor) | Final(target: object)

  class Interceptor {
    var target: Link

    constructor ()
      ensures target == Unset
    {
      target := Unset;
    }

    method SetTarget(t: Link)
      modifies this
      ensures target == t
    {
      target := t;
    }

    method GetTarget() returns (t: Link)
      ensures t == target
    {
      t := target;
    }
  }

  class JLCFReceptacle {
    const target: object
    const interceptors: array?<Interceptor>
    const hasInterceptors: bool

    /** The interceptor objects of the chain. */
    ghost function Chain(): set<Interceptor>
      reads interceptors
    {
      if interceptors == null then {} else set j | 0 <= j < interceptors.Length :: interceptors[j]
    }

    /** `hasInterceptors` is fixed by the constructor. */
    ghost predicate Valid()
    {
      hasInterceptors == (interceptors != null && interceptors.Length > 0)
    }

    /** Where interceptor `i` should forward: to interceptor `i + 1`, or, for the last one,
        to the context manager. */
    ghost function Expected(i: int): Link
      requires interceptors != null && 0 <= i < interceptors.Length
      reads interceptors
    {
      if i + 1 < interceptors.Length then Next(interceptors[i + 1]) else Final(target)
    }

    /** No later position of the array holds the same interceptor as position `i`, so the
        set-up's write for `i` is the last one to that object. */
    ghost predicate LastOccurrence(i: int)
      requires interceptors != null && 0 <= i < interceptors.Length
      reads interceptors
    {
      forall j :: i < j < interceptors.Length ==> interceptors[j] != interceptors[i]
    }

    ghost predicate Distinct()
      reads interceptors
    {
      interceptors != null ==> forall i, j :: 0 <= i < j < interceptors.Length ==> interceptors[i] != interceptors[j]
    }

    /** Every interceptor forwards where it should. */
    ghost predicate Linked()
      reads interceptors, Chain()
    {
      interceptors != null ==> forall i :: 0 <= i < interceptors.Length ==> interceptors[i].target == Expected(i)
    }

    /** The receptacle over `interceptors` (possibly null) in front of `target`; the chain
        is set up at once. */
    constructor (interceptors: array?<Interceptor>, target: object)
      modifies if interceptors == null then {} else set j | 0 <= j < interceptors.Length :: interceptors[j]
      ensures this.interceptors == interceptors && this.target == target && Valid()
      ensures interceptors != null ==> interceptors[..] == old(interceptors[..])
      ensures interceptors != null ==> forall i :: 0 <= i < interceptors.Length && LastOccurrence(i) ==>
        interceptors[i].target == Expected(i)
      ensures Distinct() ==> Linked()
    {
      this.interceptors := interceptors;
      this.hasInterceptors := interceptors != null && interceptors.Length > 0;
      this.target := target;
      new;
      SetupInterceptors();
    }

    /** No position after `j` and before `upTo` holds the same interceptor as `j`. */
    ghost predicate NotRewritten(j: int, upTo: int)
      requires interceptors != null && 0 <= j < interceptors.Length && upTo <= interceptors.Length
      reads interceptors
    {
      forall k :: j < k < upTo ==> interceptors[k] != interceptors[j]
    }

    /** The loop of the set-up has run for positions below `i`. */
    ghost predicate ForwardedBelow(i: int)
      requires interceptors != null && 0 <= i <= interceptors.Length
      reads interceptors, Chain()
    {
      forall j :: 0 <= j < i && j + 1 < interceptors.Length && NotRewritten(j, i) ==>
        interceptors[j].target == Next(interceptors[j + 1])
    }

    /** `setupInterceptors`: with no interceptors nothing is touched; otherwise each one
        but the last is pointed at the next, in array order, and then the last at the
        context manager. An interceptor that occurs twice keeps its last write. */
    method SetupInterceptors()
      requires Valid()
      modifies Chain()
      ensures interceptors != null ==> forall i :: 0 <= i < interceptors.Length && LastOccurrence(i) ==>
        interceptors[i].target == Expected(i)
      ensures !hasInterceptors ==> Chain() == {}
    {
      if !hasInterceptors {
        return;
      }
      var n := interceptors.Length;
      for i := 0 to n
        invariant ForwardedBelow(i)
      {
        if i + 1 < n {
          assert interceptors[i] in Chain();
          interceptors[i].SetTarget(Next(interceptors[i + 1]));
        }
        assert ForwardedBelow(i + 1) by {
          forall j | 0 <= j < i + 1 && j + 1 < n && NotRewritten(j, i + 1)
            ensures interceptors[j].target == Next(interceptors[j + 1])
          {
            if j < i {
              assert interceptors[i] != interceptors[j];
              assert NotRewritten(j, i);
            }
          }
        }
      }
      assert interceptors[n - 1] in Chain();
      interceptors[n - 1].SetTarget(Final(target));
      forall i | 0 <= i < n && LastOccurrence(i)
        ensures interceptors[i].target == Expected(i)
      {
        if i + 1 < n {
          assert interceptors[n - 1] != interceptors[i];
          assert NotRewritten(i, n);
        }
      }
    }

    /** Where a call entering at `l` is after `steps` hops along the chain. */
    ghost function Follow(l: Link, steps: nat): Link
      reads interceptors, Chain()
      decreases steps
    {
      if steps == 0 then l
      else match l
        case Next(x) => if x in Chain() then Follow(x.target, steps - 1) else l
        case _ => l
    }

    /** Starting at interceptor `j` of a linked chain, `k` hops lead to interceptor `j + k`,
        or to the context manager once the chain is used up. */
    lemma {:induction false} FollowLinked(j: nat, k: nat)
      requires Linked() && interceptors != null && j < interceptors.Length && j + k <= interceptors.Length
      ensures Follow(Next(interceptors[j]), k)
           == if j + k < interceptors.Length then Next(interceptors[j + k]) else Final(target)
      decreases k
    {
      if k > 0 {
        var x := interceptors[j];
        assert x in Chain();
        assert x.target == Expected(j);
        assert Follow(Next(x), k) == Follow(x.target, k - 1);
        if j + 1 < interceptors.Length {
          assert x.target == Next(interceptors[j + 1]);
          FollowLinked(j + 1, k - 1);
        } else {
          assert k == 1 && x.target == Final(target);
        }
      }
    }

    /** A call through a linked chain of `n` interceptors reaches the context manager in
        exactly `n` hops, passing every interceptor in array order. */
    lemma WalkReachesTarget()
      requires Linked() && hasInterceptors && Valid()
      ensures Follow(Next(interceptors[0]), interceptors.Length) == Final(target)
      ensures forall k :: 0 <= k < interceptors.Length ==> Follow(Next(interceptors[0]), k) == Next(interceptors[k])
    {
      FollowLinked(0, interceptors.Length);
      forall k | 0 <= k < interceptors.Length
        ensures Follow(Next(interceptors[0]), k) == Next(interceptors[k])
      {
        FollowLinked(0, k);
      }
    }

    /** `invoke`: the call goes to the first interceptor when there is one, otherwise
        straight to the context manager; a thrown exception reaches the caller unwrapped. */
    method Invoke(body: BodyOutcome) returns (dispatchedTo: Link, result: BodyOutcome)
      requires Valid()
      ensures dispatchedTo == if hasInterceptors then Next(interceptors[0]) else Final(target)
      ensures result == body
    {
      if hasInterceptors {
        dispatchedTo := Next(interceptors[0]);
      } else {
        dispatchedTo := Final(target);
      }
      var reflected := Reflect(body);
      if reflected.Throws? {
        return dispatchedTo, Throws(Rethrown(reflected.ex));
      }
      result := reflected;
    }

    /** Not implemented by the framework: the chain stays as it is. */
    method AddInterceptor(interceptor: Interceptor)
      ensures forall x :: x in Chain() ==> x.target == old(x.target)
    {
    }

    /** Not implemented by the framework: the chain stays as it is. */
    method RemoveInterceptor(interceptor: Interceptor)
      ensures forall x :: x in Chain() ==> x.target == old(x.target)
    {
    }
  }
}
