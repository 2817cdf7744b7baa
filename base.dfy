/** Shared vocabulary: optional values, canvas-space points and the real-number helpers that
    stand for JavaScript's Math.min, Math.max and Math.abs. */
module Base {

  datatype Option<T> = None | Some(value: T) {
    /** The JavaScript `v || d` idiom for a possibly missing value. */
    function GetOr(default: T): T {
      match this
      case Some(v) => v
      case None => default
    }
  }

  /** A point in canvas space (or in screen space, where a caller says so). */
  datatype Point = Point(x: real, y: real)

  function Min(a: real, b: real): (r: real)
    ensures r <= a && r <= b && (r == a || r == b)
  {
    if a <= b then a else b
  }

  function Max(a: real, b: real): (r: real)
    ensures r >= a && r >= b && (r == a || r == b)
  {
    if a >= b then a else b
  }

  function Abs(a: real): (r: real)
    ensures r >= 0.0 && (r == a || r == -a)
  {
    if a >= 0.0 then a else -a
  }

  /** Squared Euclidean distance; every `Math.sqrt(d) <= r` test of the source is
      modelled as `DistSq <= r * r`, which is equivalent for r >= 0. */
  function DistSq(p: Point, q: Point): real
  {
    (p.x - q.x) * (p.x - q.x) + (p.y - q.y) * (p.y - q.y)
  }

  lemma DistSqSymmetric(p: Point, q: Point)
    ensures DistSq(p, q) == DistSq(q, p)
  {
  }

  /** JavaScript truthiness of a number (NaN is not modelled). */
  predicate NumTruthy(n: real) { n != 0.0 }

  /** `n || d` for a number. */
  function NumOr(n: real, d: real): real { if n != 0.0 then n else d }

  /** `s || d` for a string. */
  function StrOr(s: string, d: string): string { if s != "" then s else d }

  /** `xs.filter(y => y !== x)`: every occurrence of `x` removed, the rest kept in order. */
  function Without<T(==,!new)>(xs: seq<T>, x: T): (r: seq<T>)
    ensures forall y :: y in r <==> y in xs && y != x
    ensures |r| <= |xs|
  {
    if xs == [] then []
    else (if xs[0] == x then [] else [xs[0]]) + Without(xs[1..], x)
  }

  /** Concatenation regroups freely (a small generic step that keeps proofs over long
      element records cheap). */
  lemma ConcatAssoc<T>(a: seq<T>, b: seq<T>, c: seq<T>)
    ensures a + (b + c) == (a + b) + c
  {
  }

  /** A non-empty front part splits off its head. */
  lemma ConsConcat<T>(a: seq<T>, b: seq<T>)
    requires a != []
    ensures a + b == [a[0]] + (a[1..] + b)
  {
  }
}
