/**
 * The quadruple particle link of the connect constraints: four particle
 * indices, stored as given and never validated.
 */
module Constraints {

  datatype ApexConstraintParticleFour = ApexConstraintParticleFour(p1: int, p2: int, p3: int, p4: int)

  /** The parameterless constructor: every index keeps the default value 0. */
  function Default(): (q: ApexConstraintParticleFour)
    ensures q.p1 == 0 && q.p2 == 0 && q.p3 == 0 && q.p4 == 0
  {
    ApexConstraintParticleFour(0, 0, 0, 0)
  }

  /**
   * The four-argument constructor. Any integers are accepted (duplicates,
   * negatives, indices past the particle count), and each argument is
   * stored in the field of the same position.
   */
  function Create(p1: int, p2: int, p3: int, p4: int): (q: ApexConstraintParticleFour)
    ensures q.p1 == p1 && q.p2 == p2 && q.p3 == p3 && q.p4 == p4
  {
    ApexConstraintParticleFour(p1, p2, p3, p4)
  }

  /** Reading the four fields back and constructing again gives the same link. */
  lemma CreateFromFields(q: ApexConstraintParticleFour)
    ensures Create(q.p1, q.p2, q.p3, q.p4) == q
  {
  }

  /** Two links built by the constructor are equal exactly when their arguments are. */
  lemma CreateInjective(a1: int, a2: int, a3: int, a4: int, b1: int, b2: int, b3: int, b4: int)
    ensures Create(a1, a2, a3, a4) == Create(b1, b2, b3, b4)
        <==> a1 == b1 && a2 == b2 && a3 == b3 && a4 == b4
  {
  }

  /**
   * Argument order matters: the link built from the reversed arguments is
   * the same link only when the arguments form a palindrome, so the
   * constructor neither sorts nor swaps.
   */
  lemma CreateKeepsOrder(p1: int, p2: int, p3: int, p4: int)
    ensures Create(p1, p2, p3, p4) == Create(p4, p3, p2, p1) <==> p1 == p4 && p2 == p3
  {
  }

  /** The default link is the one the four-argument constructor builds from four zeros. */
  lemma DefaultIsAllZero()
    ensures Default() == Create(0, 0, 0, 0)
  {
  }
}
