/**
 * Values shared by every part of the model: identifiers, the authenticated
 * principal, and the two shapes a request can end in (a handler's result,
 * a middleware's verdict).
 */
module Common {

  /** Identifiers. Users and products are referenced by opaque strings;
      carts and orders get their identities from the store that creates them. */
  type UserId = string
  type ProductId = string
  type CategoryId = string
  type CartId = nat
  type OrderId = nat

  datatype Option<T> = None | Some(value: T)

  /** What a controller answers: a value, or an HTTP error status with its message. */
  datatype Result<T> = Ok(value: T) | Err(status: int, message: string)

  /** What a middleware decides: hand over to the next handler, or answer now. */
  datatype Verdict = Next | Reject(status: int, message: string)

  /** Account roles. A role string other than "admin" or "vendor" behaves as Client. */
  datatype Role = Admin | Vendor | Client

  /** The authenticated caller, passed explicitly: its id and, when present, its role. */
  datatype Principal = Principal(id: UserId, role: Option<Role>)

  function Min(a: int, b: int): int { if a <= b then a else b }

  /** `array.map(f)`. */
  function MapSeq<A, B>(s: seq<A>, f: A -> B): (r: seq<B>)
    ensures |r| == |s| && forall i :: 0 <= i < |s| ==> r[i] == f(s[i])
  {
    seq(|s|, i requires 0 <= i < |s| => f(s[i]))
  }

  /** A sequence is its part before `i`, its element at `i` and its part after `i`. */
  lemma Split<T>(s: seq<T>, i: nat)
    requires i < |s|
    ensures s == s[..i] + [s[i]] + s[i + 1..]
  {
    assert forall j :: 0 <= j < |s| ==> (s[..i] + [s[i]] + s[i + 1..])[j] == s[j];
  }

  /** `splice(i, 1)` takes exactly one occurrence of `s[i]` out of `s`. */
  lemma SpliceMultiset<T>(s: seq<T>, i: nat)
    requires i < |s|
    ensures multiset(s[..i] + s[i + 1..]) + multiset{s[i]} == multiset(s)
  {
    Split(s, i);
  }
}
