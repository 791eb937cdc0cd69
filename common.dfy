/** Small building blocks shared by the component models: an optional value
    (JavaScript's null / undefined), a result with an error message, and the
    whitespace trimming that String.prototype.trim performs. */
module Common {

  /** A value that may be absent, as `T | null` or `T | undefined` in the app. */
  datatype Option<+T> = None | Some(value: T)

  /** The outcome of an operation that can throw: a value or an error message. */
  datatype Result<+T> = Success(value: T) | Failure(error: string)

  /** The characters String.prototype.trim removes: the ECMAScript WhiteSpace
      code points (tab, vertical tab, form feed, no-break space, byte order mark
      and every space separator) and the LineTerminator code points. */
  predicate IsWhiteSpace(c: char)
  {
    var n := c as int;
    || (0x0009 <= n <= 0x000D)   // tab, line feed, vertical tab, form feed, carriage return
    || n == 0x0020 || n == 0x00A0 || n == 0x1680
    || (0x2000 <= n <= 0x200A)   // en quad .. hair space
    || n == 0x2028 || n == 0x2029 // line and paragraph separators
    || n == 0x202F || n == 0x205F || n == 0x3000 || n == 0xFEFF
  }

  /** True when every character of `s` is whitespace (in particular for ""). */
  ghost predicate AllWhiteSpace(s: string)
  {
    forall i :: 0 <= i < |s| ==> IsWhiteSpace(s[i])
  }

  /** `s` without its leading whitespace: a suffix of `s` that starts with a
      non-whitespace character, everything before it being whitespace. */
  function TrimStart(s: string): (r: string)
    ensures |r| <= |s| && r == s[|s| - |r|..]
    ensures forall i :: 0 <= i < |s| - |r| ==> IsWhiteSpace(s[i])
    ensures r != [] ==> !IsWhiteSpace(r[0])
  {
    if s != [] && IsWhiteSpace(s[0]) then
      var r := TrimStart(s[1..]);
      assert forall i :: 1 <= i < |s| - |r| ==> s[i] == s[1..][i - 1];
      r
    else s
  }

  /** `s` without its trailing whitespace: a prefix of `s` that ends with a
      non-whitespace character, everything after it being whitespace. */
  function TrimEnd(s: string): (r: string)
    ensures |r| <= |s| && r == s[..|r|]
    ensures forall i :: |r| <= i < |s| ==> IsWhiteSpace(s[i])
    ensures r != [] ==> !IsWhiteSpace(r[|r| - 1])
  {
    if s != [] && IsWhiteSpace(s[|s| - 1]) then
      var r := TrimEnd(s[..|s| - 1]);
      assert forall i :: |r| <= i < |s| - 1 ==> s[i] == s[..|s| - 1][i];
      r
    else s
  }

  /** String.prototype.trim: strip whitespace from both ends. */
  function Trim(s: string): string
  {
    TrimEnd(TrimStart(s))
  }

  /** Every character of `s` outside positions `lo` to `hi - 1` is whitespace. */
  ghost predicate WhiteSpaceOutside(s: string, lo: int, hi: int)
  {
    forall i :: 0 <= i < |s| && !(lo <= i < hi) ==> IsWhiteSpace(s[i])
  }

  /** How many leading whitespace characters `trim()` removes. */
  function LeadingWhiteSpace(s: string): nat
  {
    |s| - |TrimStart(s)|
  }

  /** The result of trimming is the contiguous piece of the input that starts
      after the leading whitespace, with no whitespace at either end. */
  lemma TrimIsInfix(s: string)
    ensures LeadingWhiteSpace(s) + |Trim(s)| <= |s|
    ensures Trim(s) == s[LeadingWhiteSpace(s)..LeadingWhiteSpace(s) + |Trim(s)|]
    ensures Trim(s) != [] ==> !IsWhiteSpace(Trim(s)[0]) && !IsWhiteSpace(Trim(s)[|Trim(s)| - 1])
  {
    var t := TrimStart(s);
    var r := TrimEnd(t);
    var a := |s| - |t|;
    assert s[a..] == t;
    assert r == s[a..][..|r|];
    assert s[a..][..|r|] == s[a..a + |r|];
    if r != [] {
      assert r[0] == t[0];
    }
  }

  /** Everything `trim()` removes, on either side of that piece, is whitespace. */
  lemma TrimRemovesWhiteSpace(s: string)
    ensures WhiteSpaceOutside(s, LeadingWhiteSpace(s), LeadingWhiteSpace(s) + |Trim(s)|)
  {
    var t := TrimStart(s);
    var r := TrimEnd(t);
    var a := |s| - |t|;
    forall i | 0 <= i < |s| && !(a <= i < a + |r|) ensures IsWhiteSpace(s[i]) {
      if i < a {
        assert IsWhiteSpace(s[i]);
      } else {
        var j := i - a;
        assert |r| <= j < |t|;
        assert IsWhiteSpace(t[j]);
        assert s[i] == t[j];
      }
    }
  }

  /** `!s.trim()` holds exactly for the strings made only of whitespace. */
  lemma TrimEmptyIff(s: string)
    ensures Trim(s) == [] <==> AllWhiteSpace(s)
  {
    if Trim(s) == [] {
      assert TrimStart(s) == [];
    }
  }

  /** Trimming an already trimmed string changes nothing. */
  lemma TrimIdempotent(s: string)
    ensures Trim(Trim(s)) == Trim(s)
  {
    TrimIsInfix(s);
  }
}
