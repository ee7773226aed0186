/**
 * The per-class identifier allocator: a counter that hands out previous + 1,
 * can be reset to zero, and refuses every request to release an identifier.
 */
module Ids {

  /** The allocator's whole state: the last identifier handed out (0 before the first). */
  datatype IdManager = IdManager(counter: int)

  /** The result of drawing one identifier: the advanced allocator and the identifier. */
  datatype Drawn = Drawn(manager: IdManager, id: int)

  /** The allocator after a sequence of requests and the identifiers it handed out, in order. */
  datatype Issued = Issued(manager: IdManager, ids: seq<int>)

  /** Why a release request fails: identifier reuse is not implemented. */
  datatype Refusal = NotImplemented

  /** A release request's answer: the allocator afterwards and the refusal. */
  datatype Released = Released(manager: IdManager, error: Refusal)

  /** A request to the allocator. */
  datatype Request = NewId | Reset | Release(id: int)

  function Fresh(): (m: IdManager)
  {
    IdManager(0)
  }

  function GetNewId(m: IdManager): (r: Drawn)
    ensures r.id == m.counter + 1
    ensures r.manager.counter == r.id
  {
    var next := m.counter + 1;
    Drawn(IdManager(next), next)
  }

  function ResetIds(m: IdManager): (r: IdManager)
    ensures GetNewId(r).id == 1
  {
    IdManager(0)
  }

  /** Releasing is unsupported: it always fails and leaves the counter alone. */
  function ReleaseId(m: IdManager, idVal: int): (r: Released)
    ensures r.manager == m
    ensures r.error == NotImplemented
  {
    Released(m, NotImplemented)
  }

  /** A fresh allocator's first identifier is 1. */
  lemma FirstIdIsOne()
    ensures GetNewId(Fresh()).id == 1
  {
  }

  /** `n` consecutive draws. */
  function DrawMany(m: IdManager, n: nat): (r: Issued)
    ensures |r.ids| == n
    ensures forall k :: 0 <= k < n ==> r.ids[k] == m.counter + k + 1
    ensures r.manager.counter == m.counter + n
    decreases n
  {
    if n == 0 then Issued(m, [])
    else
      var d := GetNewId(m);
      var rest := DrawMany(d.manager, n - 1);
      Issued(rest.manager, [d.id] + rest.ids)
  }

  /** N draws from a fresh allocator give exactly 1..N, all distinct. */
  lemma DrawManyFromFresh(n: nat)
    ensures DrawMany(Fresh(), n).ids == seq(n, k => k + 1)
    ensures forall i, j :: 0 <= i < j < n ==> DrawMany(Fresh(), n).ids[i] != DrawMany(Fresh(), n).ids[j]
  {
  }

  function Step(m: IdManager, req: Request): (r: Issued)
  {
    match req
    case NewId => var d := GetNewId(m); Issued(d.manager, [d.id])
    case Reset => Issued(ResetIds(m), [])
    case Release(v) => Issued(ReleaseId(m, v).manager, [])
  }

  /** Serves the requests in order, collecting the identifiers handed out. */
  function Run(m: IdManager, reqs: seq<Request>): (r: Issued)
    decreases |reqs|
  {
    if |reqs| == 0 then Issued(m, [])
    else
      var first := Step(m, reqs[0]);
      var rest := Run(first.manager, reqs[1..]);
      Issued(rest.manager, first.ids + rest.ids)
  }

  ghost predicate NoReset(reqs: seq<Request>)
  {
    forall i :: 0 <= i < |reqs| ==> !reqs[i].Reset?
  }

  ghost predicate StrictlyIncreasing(s: seq<int>)
  {
    forall i, j :: 0 <= i < j < |s| ==> s[i] < s[j]
  }

  /**
   * Without a reset the counter never goes down, and the identifiers handed
   * out are strictly increasing and above the starting counter, so none is
   * handed out twice, whatever releases are requested in between.
   */
  lemma {:induction false} NoReuseWithoutReset(m: IdManager, reqs: seq<Request>)
    requires NoReset(reqs)
    ensures Run(m, reqs).manager.counter >= m.counter
    ensures StrictlyIncreasing(Run(m, reqs).ids)
    ensures forall i :: 0 <= i < |Run(m, reqs).ids| ==> m.counter < Run(m, reqs).ids[i] <= Run(m, reqs).manager.counter
    decreases |reqs|
  {
    if |reqs| > 0 {
      var first := Step(m, reqs[0]);
      assert NoReset(reqs[1..]) by {
        forall i | 0 <= i < |reqs[1..]|
          ensures !reqs[1..][i].Reset?
        {
          assert reqs[1..][i] == reqs[i + 1];
        }
      }
      NoReuseWithoutReset(first.manager, reqs[1..]);
      var rest := Run(first.manager, reqs[1..]);
      assert Run(m, reqs).ids == first.ids + rest.ids;
      assert first.manager.counter >= m.counter;
      assert forall i :: 0 <= i < |first.ids| ==> m.counter < first.ids[i] <= first.manager.counter;
    }
  }

  /**
   * Every identifier handed out by an allocator whose counter starts at or
   * above zero is at least 1, resets included.
   */
  lemma {:induction false} IdsArePositive(m: IdManager, reqs: seq<Request>)
    requires m.counter >= 0
    ensures Run(m, reqs).manager.counter >= 0
    ensures forall i :: 0 <= i < |Run(m, reqs).ids| ==> Run(m, reqs).ids[i] >= 1
    decreases |reqs|
  {
    if |reqs| > 0 {
      var first := Step(m, reqs[0]);
      IdsArePositive(first.manager, reqs[1..]);
      var rest := Run(first.manager, reqs[1..]);
      assert Run(m, reqs).ids == first.ids + rest.ids;
    }
  }
}
