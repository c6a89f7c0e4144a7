/** Values and string operations shared by the rule compiler, the test pipeline,
    the info metrics and the hand-written activity predicates. */
module Base {

  datatype Option<+T> = None | Some(value: T)

  /** The outcome of a Python computation that may raise: `Raise` stands for any
      exception (the callers in this system catch them all alike). */
  datatype Result<+T> = Ok(value: T) | Raise

  /** Python's `int(s)` and `float(s)` on strings, as partial functions:
      `None` is the ValueError they raise on text they do not accept. */
  datatype Parsers = Parsers(toInt: string -> Option<int>, toFloat: string -> Option<real>)

  /** `\s` of a Python 2 regular expression compiled without re.UNICODE, and the
      characters `str.strip()` removes: space, \t, \n, \r, \v, \f. */
  predicate IsSpace(c: char)
  {
    c == ' ' || c == '\t' || c == '\n' || c == '\r' || c == '\U{B}' || c == '\U{C}'
  }

  /** True iff `s` is empty or made of whitespace only (`not s.strip()`). */
  predicate IsBlank(s: string)
  {
    forall i :: 0 <= i < |s| ==> IsSpace(s[i])
  }

  /** The longest prefix of `s` without whitespace: what a greedy `(\S*)` captures
      when the pattern continues with a space. */
  function Token(s: string): (t: string)
    ensures t <= s
    ensures forall i :: 0 <= i < |t| ==> !IsSpace(t[i])
    ensures |t| == |s| || IsSpace(s[|t|])
  {
    if s == [] || IsSpace(s[0]) then [] else [s[0]] + Token(s[1..])
  }

  /** The text before the first newline: what `.` (which excludes `\n`) can reach. */
  function FirstLine(s: string): (l: string)
    ensures l <= s
    ensures '\n' !in l
    ensures |l| == |s| || s[|l|] == '\n'
  {
    if s == [] || s[0] == '\n' then [] else [s[0]] + FirstLine(s[1..])
  }

  /** The largest index holding `c`, if any. */
  function LastIndexOf(s: string, c: char): (r: Option<nat>)
    ensures r.Some? ==> r.value < |s| && s[r.value] == c
    ensures r.Some? ==> forall j :: r.value < j < |s| ==> s[j] != c
    ensures r.None? ==> c !in s
  {
    if s == [] then None
    else if s[|s| - 1] == c then Some(|s| - 1)
    else LastIndexOf(s[..|s| - 1], c)
  }

  /** `s.replace(c, '')` for a one-character `c`. */
  function RemoveChar(s: string, c: char): (r: string)
    ensures c !in r
    ensures |r| <= |s|
    ensures c !in s ==> r == s
  {
    if s == [] then [] else (if s[0] == c then [] else [s[0]]) + RemoveChar(s[1..], c)
  }

  /** `s.replace('.0', '')`: Python scans left to right and removes the
      occurrences that do not overlap. */
  function RemoveDotZero(s: string): (r: string)
    ensures |r| <= |s|
  {
    if |s| >= 2 && s[0] == '.' && s[1] == '0' then RemoveDotZero(s[2..])
    else if s == [] then []
    else [s[0]] + RemoveDotZero(s[1..])
  }

  /** Past its first character, `.0` occurs in `s` where it occurs in `s[1..]`. */
  lemma OccursAtTail(s: string, i: int)
    requires s != [] && 0 < i
    ensures OccursAt(s, ".0", i) <==> OccursAt(s[1..], ".0", i - 1)
  {
    if 0 < i <= |s| - 2 {
      assert s[1..][i - 1..i + 1] == s[i..i + 2];
    }
  }

  /** `replace('.0', '')` leaves the text unchanged iff `.0` does not occur in it. */
  lemma {:induction false} RemoveDotZeroUnchangedIff(s: string)
    ensures RemoveDotZero(s) == s <==> forall i :: !OccursAt(s, ".0", i)
    decreases |s|
  {
    if |s| >= 2 && s[0] == '.' && s[1] == '0' {
      assert OccursAt(s, ".0", 0) by { assert s[0..2] == ".0"; }
    } else if s != [] {
      RemoveDotZeroUnchangedIff(s[1..]);
      assert !OccursAt(s, ".0", 0);
      assert s == [s[0]] + s[1..];
      if forall i :: !OccursAt(s, ".0", i) {
        forall j ensures !OccursAt(s[1..], ".0", j) {
          if 0 <= j {
            OccursAtTail(s, j + 1);
          }
        }
      } else {
        var i :| OccursAt(s, ".0", i);
        OccursAtTail(s, i);
        assert RemoveDotZero(s[1..]) != s[1..];
      }
    }
  }

  /** How many times `c` occurs in `s` (`s.count(c)`). */
  function CountOf(s: string, c: char): nat
  {
    if s == [] then 0 else (if s[0] == c then 1 else 0) + CountOf(s[1..], c)
  }

  /** Each removal of `replace('.0', '')` takes out two characters, one `.`
      and one `0`; every other character keeps its count. */
  lemma {:induction false} RemoveDotZeroTakesPairs(s: string)
    ensures var r := RemoveDotZero(s); var k := CountOf(s, '.') - CountOf(r, '.');
      |s| == |r| + 2 * k &&
      CountOf(s, '0') == CountOf(r, '0') + k &&
      forall c :: c != '.' && c != '0' ==> CountOf(r, c) == CountOf(s, c)
    decreases |s|
  {
    if |s| >= 2 && s[0] == '.' && s[1] == '0' {
      var t := s[2..];
      RemoveDotZeroTakesPairs(t);
      assert s[1..][1..] == t;
    } else if s != [] {
      var t := s[1..];
      RemoveDotZeroTakesPairs(t);
      var r := RemoveDotZero(s);
      assert r[0] == s[0] && r[1..] == RemoveDotZero(t);
    }
  }

  /** ASCII `lower()`. */
  function LowerChar(c: char): char
  {
    if 'A' <= c <= 'Z' then (c as int + 32) as char else c
  }

  function Lower(s: string): (r: string)
    ensures |r| == |s|
    ensures forall i :: 0 <= i < |s| ==> r[i] == LowerChar(s[i])
  {
    if s == [] then [] else [LowerChar(s[0])] + Lower(s[1..])
  }

  /** `needle` occurs in `hay` (`hay.find(needle) >= 0`). */
  predicate Contains(hay: string, needle: string)
  {
    needle <= hay || (hay != [] && Contains(hay[1..], needle))
  }

  /** `needle` starts at position `i` of `hay`. */
  predicate OccursAt(hay: string, needle: string, i: int)
  {
    0 <= i <= |hay| - |needle| && hay[i..i + |needle|] == needle
  }

  /** A position that starts `needle` shows that `hay` contains it. */
  lemma {:induction false} OccursAtContains(hay: string, needle: string, i: int)
    requires OccursAt(hay, needle, i)
    ensures Contains(hay, needle)
  {
    if i > 0 {
      assert hay[1..][i - 1..i - 1 + |needle|] == hay[i..i + |needle|];
      OccursAtContains(hay[1..], needle, i - 1);
    } else {
      assert hay[..|needle|] == hay[0..0 + |needle|];
    }
  }

  /** `Contains` finds a position that starts `needle`. */
  lemma {:induction false} ContainsOccursAt(hay: string, needle: string) returns (i: int)
    requires Contains(hay, needle)
    ensures OccursAt(hay, needle, i)
  {
    if needle <= hay {
      i := 0;
      assert hay[0..0 + |needle|] == hay[..|needle|];
    } else {
      var j := ContainsOccursAt(hay[1..], needle);
      i := j + 1;
      assert hay[1..][j..j + |needle|] == hay[i..i + |needle|];
    }
  }

  /** Case-insensitive (ASCII) containment. */
  predicate ContainsIgnoringCase(hay: string, needle: string)
  {
    Contains(Lower(hay), Lower(needle))
  }

  function DigitChar(d: nat): char
    requires d < 10
  {
    ('0' as int + d) as char
  }

  /** The decimal text of `n`, as `"%d" % n` writes it. */
  function NatToString(n: nat): (s: string)
    ensures |s| >= 1
    ensures n < 10 <==> |s| == 1
    ensures forall i :: 0 <= i < |s| ==> '0' <= s[i] <= '9'
  {
    if n < 10 then [DigitChar(n)] else NatToString(n / 10) + [DigitChar(n % 10)]
  }

  /** Different numbers have different decimal texts. */
  lemma {:induction false} NatToStringInjective(a: nat, b: nat)
    requires NatToString(a) == NatToString(b)
    ensures a == b
  {
    var s := NatToString(a);
    if a < 10 || b < 10 {
      assert a < 10 && b < 10;
      assert s[0] == DigitChar(a) && s[0] == DigitChar(b);
    } else {
      assert s == NatToString(a / 10) + [DigitChar(a % 10)];
      assert s == NatToString(b / 10) + [DigitChar(b % 10)];
      assert s[|s| - 1] == DigitChar(a % 10) && s[|s| - 1] == DigitChar(b % 10);
      assert NatToString(a / 10) == s[..|s| - 1] == NatToString(b / 10);
      NatToStringInjective(a / 10, b / 10);
    }
  }
}
