/** Fixed-capacity character buffers filled by the driver with NUL-terminated
    text, and the text a C reader sees in them. */
module CStrings {

  const NUL: char := '\0'

  /** A buffer of `n` NUL characters, as `std::string(n, '\0')` builds. */
  function Nuls(n: nat): (r: seq<char>)
    ensures |r| == n
    ensures forall i :: 0 <= i < n ==> r[i] == NUL
  {
    seq(n, _ => NUL)
  }

  /** The characters of `buf` before its first NUL: the longest NUL-free prefix. */
  function Text(buf: seq<char>): (t: seq<char>)
    ensures |t| <= |buf| && t == buf[..|t|]
    ensures NUL !in t
    ensures |t| < |buf| ==> buf[|t|] == NUL
  {
    if buf == [] || buf[0] == NUL then [] else [buf[0]] + Text(buf[1..])
  }

  /** How much of `msg` a buffer of `capacity` characters can hold, leaving
      room for the terminating NUL. */
  function Fit(msg: string, capacity: nat): (r: string)
    requires capacity > 0
    ensures |r| == (if |msg| < capacity then |msg| else capacity - 1)
    ensures r == msg[..|r|]
  {
    if |msg| < capacity then msg else msg[..capacity - 1]
  }

  /** A driver writing `msg` into `buf`: at most |buf| - 1 characters of it,
      then a NUL; the characters after the NUL are not written. */
  function WriteCString(buf: seq<char>, msg: string): (r: seq<char>)
    requires |buf| > 0
    ensures |r| == |buf|
    ensures r[..|Fit(msg, |buf|)|] == Fit(msg, |buf|)
    ensures r[|Fit(msg, |buf|)|] == NUL
    ensures r[|Fit(msg, |buf|)| + 1..] == buf[|Fit(msg, |buf|)| + 1..]
  {
    var f := Fit(msg, |buf|);
    f + [NUL] + buf[|f| + 1..]
  }

  /** Whatever follows a NUL is invisible to a C reader. */
  lemma {:induction false} TextStopsAtNul(s: seq<char>, rest: seq<char>)
    ensures Text(s + [NUL] + rest) == Text(s)
  {
    if s != [] {
      assert (s + [NUL] + rest)[1..] == s[1..] + [NUL] + rest;
      TextStopsAtNul(s[1..], rest);
    }
  }

  /** The text seen in a buffer after the driver wrote `msg` into it is the
      part of `msg` that fits, up to any NUL `msg` itself holds; in
      particular it does not depend on what the buffer held before. */
  lemma TextOfWrite(buf: seq<char>, msg: string)
    requires |buf| > 0
    ensures Text(WriteCString(buf, msg)) == Text(Fit(msg, |buf|))
  {
    var f := Fit(msg, |buf|);
    TextStopsAtNul(f, buf[|f| + 1..]);
  }

  /** A NUL-free message that fits is read back whole. */
  lemma WholeMessageRead(buf: seq<char>, msg: string)
    requires |buf| > 0 && |msg| < |buf| && NUL !in msg
    ensures Text(WriteCString(buf, msg)) == msg
  {
    TextOfWrite(buf, msg);
    if |Text(msg)| < |msg| {
      assert false;
    }
  }
}
