/** Outcome datatypes and cardinality facts shared by every module. */
module Wrappers {

  datatype Option<+T> = None | Some(value: T)

  /** Every ApplicationError code of the services, plus the errors the database or the runtime raises. */
  datatype Error =
    | RESOURCE_NOT_FOUND
    | VALIDATION_ERROR
    | STUDENT_NOT_VERIFIED
    | GROUP_NOT_JOINABLE
    | GROUP_CAPACITY_EXCEEDED
    | GENDER_PREFERENCE_INCOMPATIBLE
    | OVERLAPPING_ACTIVE_GROUP
    | FORMATION_NOT_READY
    | FORMATION_EXPIRED
    | CONTACT_CONSENT_VERSION_MISMATCH
    | PAYMENT_NOT_CONFIRMED
    | IDEMPOTENCY_CONFLICT
    | VERIFICATION_ASSET_INVALID
    | VERIFICATION_UPLOAD_EXPIRED
    | UNIQUE_VIOLATION
    | CHECK_VIOLATION
    | INTERNAL_ERROR

  datatype Result<+T> = Ok(value: T) | Err(error: Error)

  lemma {:induction false} SubsetSize<T>(a: set<T>, b: set<T>)
    requires a <= b
    ensures |a| <= |b|
    ensures |a| == |b| <==> a == b
  {
    assert b == a + (b - a);
  }

  lemma {:induction false} Bound(ids: set<nat>) returns (bound: nat)
    ensures forall id :: id in ids ==> id < bound
  {
    bound := 0;
    if ids != {} {
      var id :| id in ids;
      var rest := Bound(ids - {id});
      bound := if rest <= id then id + 1 else rest;
      assert forall other :: other in ids ==> other == id || other in ids - {id};
    }
  }

  /** An injective image has as many elements as its domain. */
  lemma {:induction false} InjectiveImageSize<A, B>(a: set<A>, b: set<B>, f: A -> B)
    requires forall x, y :: x in a && y in a && x != y ==> f(x) != f(y)
    requires b == set x | x in a :: f(x)
    ensures |a| == |b|
  {
    if a == {} {
      assert b == {};
    } else {
      var x :| x in a;
      assert f(x) in b;
      InjectiveImageSize(a - {x}, b - {f(x)}, f);
    }
  }
}
