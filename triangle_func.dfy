/** The function form of the triangle classifier (triangle_func.py). */
module TriangleFunc {
  import opened Results

  /** The one exception get_triangle_type raises. */
  datatype TriangleError = IncorrectTriangleSides

  const Equilateral: string := "equilateral"
  const Isosceles: string := "isosceles"
  const Nonequilateral: string := "nonequilateral"

  /** The rejection guard, exactly as the source writes it: it holds exactly
      on the triples that are not proper triangles. */
  predicate Rejected(a: int, b: int, c: int)
    ensures Rejected(a, b, c) <==> !IsTriangle(a, b, c)
  {
    a <= 0 || b <= 0 || c <= 0 || a + b <= c || a + c <= b || b + c <= a
  }

  function Longest(a: int, b: int, c: int): (m: int)
    ensures m >= a && m >= b && m >= c
    ensures m == a || m == b || m == c
  {
    if a >= b && a >= c then a else if b >= c then b else c
  }

  /** Reference definition of a proper (non-degenerate) triangle: the longest
      side is strictly shorter than the other two together. */
  predicate IsTriangle(a: int, b: int, c: int) {
    2 * Longest(a, b, c) < a + b + c
  }

  /** The label of a triangle with `n` distinct side lengths. */
  function LabelFor(n: nat): string {
    if n == 1 then Equilateral else if n == 2 then Isosceles else Nonequilateral
  }

  /** get_triangle_type: rejects every triple that is not a proper triangle,
      otherwise names it by how many distinct side lengths it has. */
  function GetTriangleType(a: int, b: int, c: int): (r: Result<string, TriangleError>)
    ensures r.Err? <==> !IsTriangle(a, b, c)
    ensures r.Err? ==> r.error == IncorrectTriangleSides
    ensures r.Ok? ==> r.value == LabelFor(|{a, b, c}|)
  {
    DistinctSides(a, b, c);
    if Rejected(a, b, c) then Err(IncorrectTriangleSides)
    else if a == b == c then Ok(Equilateral)
    else if a == b || a == c || b == c then Ok(Isosceles)
    else Ok(Nonequilateral)
  }

  /** How many distinct values the set of the three sides holds. */
  lemma DistinctSides(a: int, b: int, c: int)
    ensures a == b == c ==> |{a, b, c}| == 1
    ensures !(a == b == c) && (a == b || a == c || b == c) ==> |{a, b, c}| == 2
    ensures a != b && a != c && b != c ==> |{a, b, c}| == 3
  {
  }

  /** The three strict inequalities alone already force every side to be
      positive, so the source's `<= 0` tests never decide the outcome. */
  lemma InequalitiesImplyPositive(a: int, b: int, c: int)
    requires a + b > c && a + c > b && b + c > a
    ensures a > 0 && b > 0 && c > 0
  {
  }

  lemma FailsOnNonPositiveSide(a: int, b: int, c: int)
    requires a <= 0 || b <= 0 || c <= 0
    ensures GetTriangleType(a, b, c) == Err(IncorrectTriangleSides)
  {
  }

  /** Degenerate (flat) triples, where one side equals the sum of the other
      two, are rejected together with the impossible ones. */
  lemma FailsOnTriangleInequality(a: int, b: int, c: int)
    requires a + b <= c || a + c <= b || b + c <= a
    ensures GetTriangleType(a, b, c) == Err(IncorrectTriangleSides)
  {
  }

  /** Every positive triple with the strict triangle inequality is accepted
      and gets exactly one of the three labels. */
  lemma SucceedsOnTriangle(a: int, b: int, c: int)
    requires a > 0 && b > 0 && c > 0
    requires a + b > c && a + c > b && b + c > a
    ensures GetTriangleType(a, b, c).Ok?
    ensures GetTriangleType(a, b, c).value in {Equilateral, Isosceles, Nonequilateral}
  {
  }

  /** The three labels split the accepted triples by which sides are equal. */
  lemma LabelsBySideEquality(a: int, b: int, c: int)
    requires GetTriangleType(a, b, c).Ok?
    ensures GetTriangleType(a, b, c).value == Equilateral <==> a == b == c
    ensures GetTriangleType(a, b, c).value == Isosceles <==>
              !(a == b == c) && (a == b || a == c || b == c)
    ensures GetTriangleType(a, b, c).value == Nonequilateral <==> a != b && a != c && b != c
  {
  }

  /** Reordering the sides never changes the outcome. */
  lemma PermutationInvariant(a: int, b: int, c: int)
    ensures GetTriangleType(a, b, c) == GetTriangleType(b, a, c)
    ensures GetTriangleType(a, b, c) == GetTriangleType(a, c, b)
    ensures GetTriangleType(a, b, c) == GetTriangleType(c, b, a)
    ensures GetTriangleType(a, b, c) == GetTriangleType(b, c, a)
    ensures GetTriangleType(a, b, c) == GetTriangleType(c, a, b)
  {
  }

  /** The cases of test_func.py. */
  lemma UnitTestCases()
    ensures GetTriangleType(3, 3, 3) == Ok(Equilateral)
    ensures GetTriangleType(5, 5, 8) == Ok(Isosceles)
    ensures GetTriangleType(6, 7, 8) == Ok(Nonequilateral)
    ensures GetTriangleType(0, 1, 1) == Err(IncorrectTriangleSides)
  {
  }
}
