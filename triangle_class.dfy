/** The class form of the triangle classifier (triangle_class.py). The
    source file stands alone: it repeats the guard and the classification
    instead of calling get_triangle_type, so agreement with the function
    form is proved here rather than assumed. */
module TriangleClass {
  import opened Results
  import TriangleFunc

  /** The class file declares its own copy of the exception. */
  datatype TriangleError = IncorrectTriangleSides

  class Triangle {
    // Assigned once, after validation, and never changed afterwards.
    const a: int
    const b: int
    const c: int

    /** What the constructor guarantees about every Triangle. */
    predicate Valid() {
      a > 0 && b > 0 && c > 0 && a + b > c && a + c > b && b + c > a
    }

    /** The field assignments of __init__, reached only past its guard. */
    constructor (a: int, b: int, c: int)
      requires a > 0 && b > 0 && c > 0 && a + b > c && a + c > b && b + c > a
      ensures this.a == a && this.b == b && this.c == c
      ensures Valid()
    {
      this.a := a;
      this.b := b;
      this.c := c;
    }

    /** Triangle(a, b, c): raises on a non-positive side or a violated (or
        merely equal) triangle inequality, that is on exactly the triples
        get_triangle_type rejects; otherwise stores the sides. */
    static method Create(a: int, b: int, c: int) returns (r: Result<Triangle, TriangleError>)
      ensures r.Err? <==> !TriangleFunc.IsTriangle(a, b, c)
      ensures r.Err? ==> r.error == IncorrectTriangleSides
      ensures r.Ok? ==> fresh(r.value) && r.value.Valid()
      ensures r.Ok? ==> r.value.a == a && r.value.b == b && r.value.c == c
    {
      if a <= 0 || b <= 0 || c <= 0 || a + b <= c || a + c <= b || b + c <= a {
        return Err(IncorrectTriangleSides);
      }
      var t := new Triangle(a, b, c);
      return Ok(t);
    }

    /** triangle_type: the same label get_triangle_type gives the stored sides. */
    function TriangleType(): (r: string)
      ensures Valid() ==> TriangleFunc.GetTriangleType(a, b, c) == Ok(r)
    {
      if a == b == c then TriangleFunc.Equilateral
      else if a == b || a == c || b == c then TriangleFunc.Isosceles
      else TriangleFunc.Nonequilateral
    }

    /** perimeter: the sum of the sides, which on a valid triangle exceeds
        twice every side. */
    function Perimeter(): (p: int)
      ensures p == a + b + c
      ensures Valid() ==> p > 0 && p > 2 * a && p > 2 * b && p > 2 * c
    {
      a + b + c
    }
  }

  /** test_class.py: Triangle(3, 3, 3) is equilateral with perimeter 9. */
  method EquilateralCase() returns (kind: string, perimeter: int)
    ensures kind == "equilateral" && perimeter == 9
  {
    var r := Triangle.Create(3, 3, 3);
    var t := r.value;
    kind := t.TriangleType();
    perimeter := t.Perimeter();
  }

  /** test_class.py: Triangle(5, 5, 8) is isosceles. */
  method IsoscelesCase() returns (kind: string)
    ensures kind == "isosceles"
  {
    var r := Triangle.Create(5, 5, 8);
    var t := r.value;
    kind := t.TriangleType();
  }

  /** test_class.py: Triangle(1, 1, 3) raises IncorrectTriangleSides. */
  method InvalidCase() returns (failed: bool)
    ensures failed
  {
    var r := Triangle.Create(1, 1, 3);
    failed := r == Err(IncorrectTriangleSides);
  }
}
