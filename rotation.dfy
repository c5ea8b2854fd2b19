/** The 2x2 rotation operator of a rotating frame, `c * I + i * s * sigma_y`,
    over exact complex numbers. The cosine and sine values `c` and `s` are
    given, not computed: no trigonometry is modelled here. */
module Rotation {

  datatype Complex = Complex(re: real, im: real)

  function Real(x: real): Complex
  {
    Complex(x, 0.0)
  }

  function Add(z: Complex, w: Complex): Complex
  {
    Complex(z.re + w.re, z.im + w.im)
  }

  function Mul(z: Complex, w: Complex): Complex
  {
    Complex(z.re * w.re - z.im * w.im, z.re * w.im + z.im * w.re)
  }

  function Conj(z: Complex): Complex
  {
    Complex(z.re, -z.im)
  }

  /** A 2x2 complex matrix, row by row. */
  datatype Matrix = Matrix(a: Complex, b: Complex, c: Complex, d: Complex)

  const Identity := Matrix(Real(1.0), Real(0.0), Real(0.0), Real(1.0))

  /** The Pauli-Y matrix `[[0, -i], [i, 0]]`. */
  const SigmaY := Matrix(Real(0.0), Complex(0.0, -1.0), Complex(0.0, 1.0), Real(0.0))

  function Scale(z: Complex, m: Matrix): Matrix
  {
    Matrix(Mul(z, m.a), Mul(z, m.b), Mul(z, m.c), Mul(z, m.d))
  }

  function Sum(m: Matrix, n: Matrix): Matrix
  {
    Matrix(Add(m.a, n.a), Add(m.b, n.b), Add(m.c, n.c), Add(m.d, n.d))
  }

  function Product(m: Matrix, n: Matrix): Matrix
  {
    Matrix(Add(Mul(m.a, n.a), Mul(m.b, n.c)), Add(Mul(m.a, n.b), Mul(m.b, n.d)),
           Add(Mul(m.c, n.a), Mul(m.d, n.c)), Add(Mul(m.c, n.b), Mul(m.d, n.d)))
  }

  /** The conjugate transpose. */
  function Adjoint(m: Matrix): Matrix
  {
    Matrix(Conj(m.a), Conj(m.c), Conj(m.b), Conj(m.d))
  }

  /** `c * I + i * s * sigma_y`, which is the real rotation matrix
      `[[c, s], [-s, c]]`. */
  function Operator(c: real, s: real): (r: Matrix)
    ensures r == Matrix(Real(c), Real(s), Real(-s), Real(c))
  {
    Sum(Scale(Real(c), Identity), Scale(Complex(0.0, s), SigmaY))
  }

  /** When `c` and `s` are a cosine and sine of one angle, so that
      `c * c + s * s == 1`, the operator is unitary. */
  lemma OperatorUnitary(c: real, s: real)
    requires c * c + s * s == 1.0
    ensures Product(Operator(c, s), Adjoint(Operator(c, s))) == Identity
    ensures Product(Adjoint(Operator(c, s)), Operator(c, s)) == Identity
  {
  }
}
