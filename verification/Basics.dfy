/** Values shared by the whole model: options, errno results, and sums over node tables. */
module Basics {

  datatype Option<+T> = None | Some(value: T)

  /** The errno values that the modelled functions return. */
  datatype Errno =
    | EAGAIN | EBADMSG | EBADSLT | EBUSY | EDOM | EFAULT | EINVAL | EIO | ENETUNREACH | ENODATA
    | ENODEV | ENOMEM | ENOSPC | ERANGE | ERESTARTSYS | ETIMEDOUT | E2BIG

  datatype Result<+T> = Ok(value: T) | Err(errno: Errno)

  /** Sum of a table of weights, one weight per node. */
  function Total(ws: seq<int>): int
  {
    if ws == [] then 0 else Total(ws[..|ws| - 1]) + ws[|ws| - 1]
  }

  lemma {:induction false} TotalUpdate(ws: seq<int>, i: nat, w: int)
    requires i < |ws|
    ensures Total(ws[i := w]) == Total(ws) - ws[i] + w
  {
    var n := |ws| - 1;
    if i == n {
      assert ws[i := w][..n] == ws[..n];
    } else {
      assert ws[i := w][..n] == ws[..n][i := w];
      TotalUpdate(ws[..n], i, w);
    }
  }

  /** Two tables that differ at most at index i have totals that differ by that entry. */
  lemma TotalChange(ws: seq<int>, vs: seq<int>, i: nat)
    requires |ws| == |vs| && i < |ws|
    requires forall j :: 0 <= j < |ws| && j != i ==> ws[j] == vs[j]
    ensures Total(vs) == Total(ws) - ws[i] + vs[i]
  {
    assert vs == ws[i := vs[i]];
    TotalUpdate(ws, i, vs[i]);
  }

  lemma {:induction false} TotalNonNegative(ws: seq<int>)
    requires forall i :: 0 <= i < |ws| ==> ws[i] >= 0
    ensures Total(ws) >= 0
    ensures forall i :: 0 <= i < |ws| ==> ws[i] <= Total(ws)
  {
    if ws != [] {
      TotalNonNegative(ws[..|ws| - 1]);
    }
  }
}
