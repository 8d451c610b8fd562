/** The view of an interleaved real/imaginary sample buffer as an array of
    complex numbers, for any one element type (the driver's
    NIComplexNumberF32_struct, NIComplexNumber_struct and NIComplexI16_struct
    are Complex<ViReal32>, Complex<ViReal64> and Complex<ViInt16>). */
module ComplexBuffers {

  /** One complex sample: two consecutive components of the same type. */
  datatype Complex<T> = Complex(re: T, im: T)

  /** The flat buffer read as complex pairs: |s| / 2 of them (floor), pair i
      made of s[2i] and s[2i + 1]; an odd trailing component is not part of
      any pair. */
  function Pairs<T>(s: seq<T>): (r: seq<Complex<T>>)
    ensures |r| == |s| / 2
    ensures forall i :: 0 <= i < |r| ==> r[i].re == s[2 * i] && r[i].im == s[2 * i + 1]
    decreases |s|
  {
    if |s| < 2 then [] else [Complex(s[0], s[1])] + Pairs(s[2..])
  }

  /** The wire form of a complex array: real and imaginary parts interleaved. */
  function Interleave<T>(c: seq<Complex<T>>): (s: seq<T>)
    ensures |s| == 2 * |c|
  {
    if c == [] then [] else [c[0].re, c[0].im] + Interleave(c[1..])
  }

  /** Reading the wire form of a complex array gives that array back. */
  lemma {:induction false} PairsOfInterleave<T>(c: seq<Complex<T>>)
    ensures Pairs(Interleave(c)) == c
  {
    if c != [] {
      var s := Interleave(c);
      assert s[2..] == Interleave(c[1..]);
      PairsOfInterleave(c[1..]);
    }
  }

  /** Writing the pairs back out restores the buffer without its odd
      trailing component, if any. */
  lemma {:induction false} InterleaveOfPairs<T>(s: seq<T>)
    ensures Interleave(Pairs(s)) == s[..|s| - |s| % 2]
    decreases |s|
  {
    if |s| >= 2 {
      var p := Pairs(s);
      assert p[1..] == Pairs(s[2..]);
      InterleaveOfPairs(s[2..]);
      assert s[..|s| - |s| % 2] == s[..2] + s[2..][..|s[2..]| - |s[2..]| % 2];
    }
  }

  /** An odd trailing component is dropped: it changes nothing in the view. */
  lemma {:induction false} TrailingComponentDropped<T>(s: seq<T>, x: T)
    requires |s| % 2 == 0
    ensures Pairs(s + [x]) == Pairs(s)
    decreases |s|
  {
    if |s| >= 2 {
      assert (s + [x])[2..] == s[2..] + [x];
      TrailingComponentDropped(s[2..], x);
    }
  }
}
