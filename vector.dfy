/** The standalone 2D integer vector of src/vector.rs (a copy of the one in
    src/lib.rs with public fields; no `mod` declaration pulls it into the
    crate). */
module Vector {
  import opened Ints

  datatype Vector2 = Vector2(x: i32, y: i32)

  /** `Vector2::new`. */
  function New(x: i32, y: i32): (v: Vector2)
    ensures v.x == x && v.y == y
  {
    Vector2(x, y)
  }

  /** Both component sums fit in `i32`, so `a + b` does not panic. */
  predicate CanAdd(a: Vector2, b: Vector2) {
    AddFits(a.x, b.x) && AddFits(a.y, b.y)
  }

  /** `impl Add for Vector2`: the componentwise sum. */
  function Add(a: Vector2, b: Vector2): (r: Vector2)
    requires CanAdd(a, b)
    ensures r.x == a.x + b.x && r.y == a.y + b.y
  {
    Vector2(a.x + b.x, a.y + b.y)
  }

  /** `impl AddAssign for Vector2`: `*self` is replaced by a new vector;
      `updated` is the value `*self` holds afterwards. */
  method AddAssign(self: Vector2, other: Vector2) returns (updated: Vector2)
    requires CanAdd(self, other)
    ensures updated == Add(self, other)
    ensures updated.x == self.x + other.x && updated.y == self.y + other.y
  {
    updated := Vector2(self.x + other.x, self.y + other.y);
  }

  /** Addition is commutative wherever it is defined. */
  lemma AddCommutes(a: Vector2, b: Vector2)
    requires CanAdd(a, b)
    ensures CanAdd(b, a) && Add(a, b) == Add(b, a)
  {
  }

  /** The zero vector is the identity of addition. */
  lemma AddZero(a: Vector2)
    ensures CanAdd(a, Vector2(0, 0)) && Add(a, Vector2(0, 0)) == a
  {
  }

  /** The unit test `add_vec`, first case: (0,0) + (0,0) == (0,0). */
  lemma AddVecZeros()
    ensures Add(New(0, 0), New(0, 0)) == New(0, 0)
  {
  }

  /** The unit test `add_vec`, second case: (1,1) + (1,1) == (2,2). */
  lemma AddVecOnes()
    ensures Add(New(1, 1), New(1, 1)) == New(2, 2)
  {
  }

  /** The unit test `add_vec_assign`: starting from (0,0), `+= (1,1)` gives (1,1). */
  method AddVecAssignExample() returns (v: Vector2)
    ensures v == New(1, 1)
  {
    v := New(0, 0);
    v := AddAssign(v, New(1, 1));
  }
}
