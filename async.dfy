/**
 * Requests a view has issued and not yet seen answered. A view issues a
 * request and goes on; the answer arrives later as an event of its own,
 * and answers to several outstanding requests may arrive in any order.
 */
module Async {

  /** What `await fetch(...)` followed by `await response.json()` yields:
      a parsed body, or a rejection (network failure, malformed JSON). */
  datatype Fetched<+T> = Threw | Received(body: T)

  /** The outstanding requests once request `k` has been answered: the
      others, in the order they were issued. */
  function Without<T>(xs: seq<T>, k: nat): (r: seq<T>)
    requires k < |xs|
    ensures |r| == |xs| - 1
    ensures forall i :: 0 <= i < k ==> r[i] == xs[i]
    ensures forall i :: k <= i < |r| ==> r[i] == xs[i + 1]
  {
    xs[..k] + xs[k + 1..]
  }
}
