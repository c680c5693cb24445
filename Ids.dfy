/**
 * Participant ids and the offerer rule.
 *
 * Ids are strings compared with JavaScript's `<` on strings: lexicographic,
 * code unit by code unit, with a proper prefix ordered first. The client that
 * compares greater than its peer is the offerer of that pair.
 */
module Ids {

  type Id = string

  /** `a < b` on JavaScript strings. */
  predicate Less(a: Id, b: Id)
    decreases |a|
  {
    if |a| == 0 then |b| > 0
    else if |b| == 0 then false
    else if a[0] < b[0] then true
    else if a[0] == b[0] then Less(a[1..], b[1..])
    else false
  }

  /** `myUserId > pId`: the local client makes the offer to this peer. */
  predicate IsOfferer(self: Id, peer: Id) {
    Less(peer, self)
  }

  lemma {:induction false} LessIrreflexive(a: Id)
    ensures !Less(a, a)
    decreases |a|
  {
    if |a| > 0 {
      LessIrreflexive(a[1..]);
    }
  }

  lemma {:induction false} LessAsymmetric(a: Id, b: Id)
    ensures Less(a, b) ==> !Less(b, a)
    decreases |a|
  {
    if |a| > 0 && |b| > 0 && a[0] == b[0] {
      LessAsymmetric(a[1..], b[1..]);
    }
  }

  lemma {:induction false} LessTransitive(a: Id, b: Id, c: Id)
    requires Less(a, b) && Less(b, c)
    ensures Less(a, c)
    decreases |a|
  {
    if |a| > 0 && a[0] == b[0] && b[0] == c[0] {
      LessTransitive(a[1..], b[1..], c[1..]);
    }
  }

  /** Any two different ids are ordered one way or the other. */
  lemma {:induction false} LessConnected(a: Id, b: Id)
    requires a != b
    ensures Less(a, b) || Less(b, a)
    decreases |a|
  {
    if |a| > 0 && |b| > 0 && a[0] == b[0] {
      assert a == [a[0]] + a[1..] && b == [b[0]] + b[1..];
      LessConnected(a[1..], b[1..]);
    }
  }

  /**
   * Role agreement: of two different clients exactly one computes that it is
   * the offerer, and a client is never its own offerer.
   */
  lemma RoleAgreement(a: Id, b: Id)
    ensures a != b ==> IsOfferer(a, b) != IsOfferer(b, a)
    ensures !IsOfferer(a, a)
  {
    LessIrreflexive(a);
    LessAsymmetric(a, b);
    if a != b {
      LessConnected(a, b);
    }
  }
}
