/** Complex scalars, as the crate's `Complex64` (`c64`), over exact reals. */
module Complex {

  datatype Complex = Complex(re: real, im: real)

  const Zero: Complex := Complex(0.0, 0.0)

  /** A real number seen as a complex one (`c64::new(x, 0.0)`). */
  function FromReal(x: real): Complex {
    Complex(x, 0.0)
  }

  function Conj(z: Complex): Complex {
    Complex(z.re, -z.im)
  }

  function Add(z: Complex, w: Complex): Complex {
    Complex(z.re + w.re, z.im + w.im)
  }

  function Mul(z: Complex, w: Complex): Complex {
    Complex(z.re * w.re - z.im * w.im, z.re * w.im + z.im * w.re)
  }

  /** A real factor times a complex number (`f64 * c64`). */
  function Scale(a: real, z: Complex): Complex {
    Complex(a * z.re, a * z.im)
  }

  lemma MulZeroRight(z: Complex)
    ensures Mul(z, Zero) == Zero && Mul(Zero, z) == Zero
  {
  }

  lemma MulAssoc(z: Complex, w: Complex, u: Complex)
    ensures Mul(Mul(z, w), u) == Mul(z, Mul(w, u))
  {
    var a, b, c, d, e, f := z.re, z.im, w.re, w.im, u.re, u.im;
    calc {
      (a * c - b * d) * e - (a * d + b * c) * f;
      a * c * e - b * d * e - a * d * f - b * c * f;
      a * (c * e - d * f) - b * (c * f + d * e);
    }
    calc {
      (a * c - b * d) * f + (a * d + b * c) * e;
      a * c * f - b * d * f + a * d * e + b * c * e;
      a * (c * f + d * e) + b * (c * e - d * f);
    }
  }
}
