/** The walk with which _iodbcdm_driverunload looks for a driver environment in its list. It advances by
    the successor of the environment it looks for instead of the successor of the one it is at, so it
    does not always arrive. PoolSpec models the unlinking it is meant to do. */
module EnvUnlink {
  import opened Lists

  datatype Walk<T> = At(position: nat) | Done(rest: seq<T>)

  // One round of the loop over the list, looking for its kth element; position |list| is the null.
  function Round<T(==)>(list: seq<T>, k: nat, walk: Walk<T>): Walk<T>
    requires k < |list|
  {
    if walk.Done? || |list| <= walk.position then walk
    else if walk.position == k then Done(list[..k] + list[k + 1..])
    else if walk.position + 1 == k then Done(list[..k] + list[k + 1..])
    else At(k + 1)
  }

  function Rounds<T(==)>(list: seq<T>, k: nat, n: nat): Walk<T>
    requires k < |list|
  {
    if n == 0 then At(0) else Round(list, k, Rounds(list, k, n - 1))
  }

  /** The walk unlinks the element exactly when it is one of the first two; any other stays linked, however
      many rounds are made - and unless it is the last, no round ends the loop. */
  lemma {:induction false} WalkArrives<T>(list: seq<T>, k: nat, n: nat)
    requires Distinct(list) && k < |list| && n > 0
    ensures k <= 1 ==> Rounds(list, k, n) == Done(Without(list, list[k]))
    ensures k > 1 ==> Rounds(list, k, n) == At(k + 1)
  {
    if n > 1 {
      WalkArrives(list, k, n - 1);
    } else {
      WithoutAt(list, k);
      assert Rounds(list, k, 0) == At(0);
    }
  }
}
