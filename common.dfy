/** Values shared by both tracker variants: optional fields and the replies of the
    network collaborators, which the model receives as oracle inputs. */
module Common {

  /** Python's `None` for a field that may be missing. */
  datatype Option<T> = None | Some(value: T)

  /** What the HTTP library reports for one request: a status code, or an
      exception (connection refused, timeout, ...). */
  datatype Response = Status(code: int) | Error

  /** A single send reports success only on status 200; every other status and
      every exception is a failure. */
  predicate Accepted(r: Response) {
    r.Status? && r.code == 200
  }

  /** Exactly one reply counts as a delivery: status 200. */
  lemma AcceptedOnly200(r: Response)
    ensures Accepted(r) <==> r == Status(200)
  {
  }

  /** Every one of the first `n` attempts of a call was accepted; `replies(i)`
      is the reply to the `i`-th request that call makes. */
  predicate AllAccepted(replies: nat -> Response, n: nat) {
    forall i: nat :: i < n ==> Accepted(replies(i))
  }

  /** Concatenation regroups freely (a helper for the solver). */
  lemma AppendAssoc<T>(a: seq<T>, b: seq<T>, c: seq<T>)
    ensures a + (b + c) == (a + b) + c
  {
  }

  /** Two accounting steps compose: if a first step turns buffer `b0`, store
      `s0` and the new samples `n1` into `b1`, `s1` and the confirmed `c1`, and a
      second step does the same from `b1` and `s1`, then the two together
      account for all the new samples of both. */
  lemma ComposeNoLoss<T>(b0: seq<T>, s0: seq<T>, n1: seq<T>, b1: seq<T>, s1: seq<T>, c1: seq<T>,
                         n2: seq<T>, b2: seq<T>, s2: seq<T>, c2: seq<T>)
    requires multiset(b0) + multiset(s0) + multiset(n1) == multiset(b1) + multiset(s1) + multiset(c1)
    requires multiset(b1) + multiset(s1) + multiset(n2) == multiset(b2) + multiset(s2) + multiset(c2)
    ensures multiset(b0) + multiset(s0) + multiset(n1 + n2) == multiset(b2) + multiset(s2) + multiset(c1 + c2)
  {
    calc {
      multiset(b0) + multiset(s0) + multiset(n1 + n2);
      multiset(b0) + multiset(s0) + multiset(n1) + multiset(n2);
      multiset(b1) + multiset(s1) + multiset(c1) + multiset(n2);
      multiset(b2) + multiset(s2) + multiset(c2) + multiset(c1);
      multiset(b2) + multiset(s2) + multiset(c1 + c2);
    }
  }
}
