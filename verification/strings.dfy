/** Python's `str.strip()` with no argument: removes leading and trailing
    characters for which `str.isspace()` holds. */
module Strings {

  /** The characters Python's `str.isspace()` accepts: the ASCII controls
      TAB..CR and FS..US, SPACE, NEL, NO-BREAK SPACE, and the Unicode space
      and line/paragraph separators. */
  predicate IsSpace(c: char) {
    var n := c as int;
    || 9 <= n <= 13
    || 28 <= n <= 32
    || n == 0x85
    || n == 0xA0
    || n == 0x1680
    || 0x2000 <= n <= 0x200A
    || n == 0x2028
    || n == 0x2029
    || n == 0x202F
    || n == 0x205F
    || n == 0x3000
  }

  /** True when every character of `s` is white space (so also for ""). */
  predicate IsBlank(s: string) {
    forall i :: 0 <= i < |s| ==> IsSpace(s[i])
  }

  /** Drops the trailing white space: the result is the prefix of `s` that
      ends at its last non-space character. */
  function TrimEnd(s: string): (r: string)
    ensures |r| <= |s| && r == s[..|r|]
    ensures forall i :: |r| <= i < |s| ==> IsSpace(s[i])
    ensures |r| > 0 ==> !IsSpace(r[|r| - 1])
    decreases |s|
  {
    if |s| > 0 && IsSpace(s[|s| - 1]) then TrimEnd(s[..|s| - 1]) else s
  }

  /** `s` consists of white space, then `r` starting at offset `k`, then white space. */
  predicate StripsTo(s: string, k: nat, r: string) {
    && k + |r| <= |s|
    && r == s[k..k + |r|]
    && (forall i :: 0 <= i < k ==> IsSpace(s[i]))
    && (forall i :: k + |r| <= i < |s| ==> IsSpace(s[i]))
  }

  /** `s.strip()`: leading white space is dropped one character at a time,
      then the trailing white space of what is left. The result is empty
      exactly when `s` is blank; `TrimShape` states what else it is. */
  function Trim(s: string): (r: string)
    ensures r == [] <==> IsBlank(s)
    decreases |s|
  {
    if |s| > 0 && IsSpace(s[0]) then
      assert forall i :: 1 <= i < |s| ==> s[i] == s[1..][i - 1];
      Trim(s[1..])
    else
      TrimEnd(s)
  }

  /** The result of `Trim` is a contiguous middle part of `s`, everything cut
      away on either side is white space, and the result neither begins nor
      ends with white space. */
  lemma {:induction false} TrimShape(s: string)
    ensures exists k :: StripsTo(s, k, Trim(s))
    ensures |Trim(s)| > 0 ==> !IsSpace(Trim(s)[0]) && !IsSpace(Trim(s)[|Trim(s)| - 1])
    decreases |s|
  {
    if |s| > 0 && IsSpace(s[0]) {
      TrimShape(s[1..]);
      var r := Trim(s[1..]);
      assert Trim(s) == r;
      var k: nat :| StripsTo(s[1..], k, r);
      StripsToSpace(s, k, r);
    } else {
      var r := TrimEnd(s);
      assert Trim(s) == r;
      assert StripsTo(s, 0, r);
      if |r| > 0 {
        assert r[0] == s[0];
      }
    }
  }

  /** One more white-space character in front moves the middle part along. */
  lemma StripsToSpace(s: string, k: nat, r: string)
    requires |s| > 0 && IsSpace(s[0]) && StripsTo(s[1..], k, r)
    ensures StripsTo(s, k + 1, r)
  {
    assert s[1..][k..k + |r|] == s[k + 1..k + 1 + |r|];
    forall i | k + 1 + |r| <= i < |s|
      ensures IsSpace(s[i])
    {
      assert s[i] == s[1..][i - 1];
    }
    forall i | 0 < i < k + 1
      ensures IsSpace(s[i])
    {
      assert s[i] == s[1..][i - 1];
    }
  }

  /** A string that neither begins nor ends with white space is left alone. */
  lemma {:induction false} TrimUnchanged(s: string)
    requires |s| > 0 ==> !IsSpace(s[0]) && !IsSpace(s[|s| - 1])
    ensures Trim(s) == s
  {
    assert TrimEnd(s) == s;
  }

  /** A line as a text reader returns it, with its line break, strips to its
      text when that text neither begins nor ends with white space. */
  lemma TrimLineBreak(s: string)
    requires |s| > 0 && !IsSpace(s[0]) && !IsSpace(s[|s| - 1])
    ensures Trim(s + "\n") == s
  {
    var t := s + "\n";
    assert t[..|t| - 1] == s;
    assert TrimEnd(s) == s;
    assert TrimEnd(t) == TrimEnd(s);
  }

  /** Text with white space on either side, but none at its own ends,
      strips back to itself. */
  lemma TrimPadded(s: string, k: nat, r: string)
    requires StripsTo(s, k, r) && |r| > 0 && !IsSpace(r[0]) && !IsSpace(r[|r| - 1])
    ensures Trim(s) == r
  {
    var t := Trim(s);
    assert s[k] == r[0];
    TrimShape(s);
    var j: nat :| StripsTo(s, j, t);
    assert |t| > 0;
    assert s[j] == t[0];
    assert j == k;
    assert s[j + |t| - 1] == t[|t| - 1];
    assert s[k + |r| - 1] == r[|r| - 1];
    assert |t| == |r|;
  }

  /** Stripping twice is stripping once. */
  lemma TrimIdempotent(s: string)
    ensures Trim(Trim(s)) == Trim(s)
  {
    TrimShape(s);
    TrimUnchanged(Trim(s));
  }

  /** The stripped lines of a text file that are not blank, in file order:
      the records a line-oriented reader looks at. */
  function NonBlankLines(lines: seq<string>): (r: seq<string>)
    ensures |r| <= |lines|
    decreases |lines|
  {
    if |lines| == 0 then []
    else
      var rest := NonBlankLines(lines[1..]);
      if IsBlank(lines[0]) then rest else [Trim(lines[0])] + rest
  }

  /** The non-blank lines are exactly the stripped lines that are not empty. */
  lemma {:induction false} NonBlankLinesMembers(lines: seq<string>)
    ensures forall x :: x in NonBlankLines(lines) ==>
              x != [] && exists i :: 0 <= i < |lines| && Trim(lines[i]) == x
    ensures forall i :: 0 <= i < |lines| && !IsBlank(lines[i]) ==> Trim(lines[i]) in NonBlankLines(lines)
    decreases |lines|
  {
    if |lines| > 0 {
      NonBlankLinesMembers(lines[1..]);
      assert forall i :: 1 <= i < |lines| ==> lines[i] == lines[1..][i - 1];
    }
  }
}
