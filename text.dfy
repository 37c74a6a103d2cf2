/** String helpers the components use: ASCII case mapping (`toLowerCase`,
    `toUpperCase`), substring search (`includes`) and `split(" ")`. */
module Text {

  predicate IsUpperAscii(c: char) { 'A' <= c <= 'Z' }
  predicate IsLowerAscii(c: char) { 'a' <= c <= 'z' }

  function LowerChar(c: char): (r: char)
    ensures !IsUpperAscii(r)
    ensures IsUpperAscii(c) ==> r as int == c as int + 32
    ensures !IsUpperAscii(c) ==> r == c
  {
    if IsUpperAscii(c) then (c as int + 32) as char else c
  }

  function UpperChar(c: char): (r: char)
    ensures !IsLowerAscii(r)
    ensures IsLowerAscii(c) ==> r as int == c as int - 32
    ensures !IsLowerAscii(c) ==> r == c
  {
    if IsLowerAscii(c) then (c as int - 32) as char else c
  }

  /** `s.toLowerCase()` for ASCII letters. */
  function Lower(s: string): (r: string)
    ensures |r| == |s|
    ensures forall i :: 0 <= i < |s| ==> r[i] == LowerChar(s[i])
    ensures forall i :: 0 <= i < |r| ==> !IsUpperAscii(r[i])
  {
    seq(|s|, i requires 0 <= i < |s| => LowerChar(s[i]))
  }

  /** `s.toUpperCase()` for ASCII letters. */
  function Upper(s: string): (r: string)
    ensures |r| == |s|
    ensures forall i :: 0 <= i < |s| ==> r[i] == UpperChar(s[i])
    ensures forall i :: 0 <= i < |r| ==> !IsLowerAscii(r[i])
  {
    seq(|s|, i requires 0 <= i < |s| => UpperChar(s[i]))
  }

  lemma LowerIdempotent(s: string)
    ensures Lower(Lower(s)) == Lower(s)
  {
  }

  lemma LowerOfUpper(s: string)
    ensures Lower(Upper(s)) == Lower(s)
  {
    assert forall i :: 0 <= i < |s| ==> LowerChar(UpperChar(s[i])) == LowerChar(s[i]);
  }

  lemma UpperOfLower(s: string)
    ensures Upper(Lower(s)) == Upper(s)
  {
    assert forall i :: 0 <= i < |s| ==> UpperChar(LowerChar(s[i])) == UpperChar(s[i]);
  }

  lemma LowerAppend(a: string, b: string)
    ensures Lower(a + b) == Lower(a) + Lower(b)
  {
  }

  lemma UpperAppend(a: string, b: string)
    ensures Upper(a + b) == Upper(a) + Upper(b)
  {
  }

  /** `a.toLowerCase() === b.toLowerCase()` */
  predicate SameIgnoringCase(a: string, b: string)
  {
    Lower(a) == Lower(b)
  }

  predicate StartsWith(s: string, prefix: string)
  {
    |prefix| <= |s| && s[..|prefix|] == prefix
  }

  /** `s.includes(sub)`, scanning start positions from the left. */
  function Contains(s: string, sub: string): (r: bool)
    decreases |s|
  {
    StartsWith(s, sub) || (|s| > 0 && Contains(s[1..], sub))
  }

  /** `sub` occurs in `s` starting at position `i`. */
  predicate OccursAt(s: string, sub: string, i: int)
  {
    0 <= i <= |s| - |sub| && s[i..i + |sub|] == sub
  }

  /** Contains holds exactly when `sub` occurs at some position of `s`. */
  lemma {:induction false} ContainsIffOccurs(s: string, sub: string)
    ensures Contains(s, sub) <==> exists i :: OccursAt(s, sub, i)
    decreases |s|
  {
    if StartsWith(s, sub) {
      assert OccursAt(s, sub, 0);
    } else if |s| == 0 {
      assert |sub| > 0;
    } else {
      ContainsIffOccurs(s[1..], sub);
      assert !OccursAt(s, sub, 0);
      if exists i :: OccursAt(s, sub, i) {
        var i :| OccursAt(s, sub, i);
        assert s[1..][i - 1..i - 1 + |sub|] == sub;
        assert OccursAt(s[1..], sub, i - 1);
      }
      if Contains(s[1..], sub) {
        var i :| OccursAt(s[1..], sub, i);
        assert s[i + 1..i + 1 + |sub|] == sub;
        assert OccursAt(s, sub, i + 1);
      }
    }
  }

  /** Every string contains the empty string, so an empty search matches all. */
  lemma ContainsEmpty(s: string)
    ensures Contains(s, "")
  {
  }

  /** `s.split(" ")`: the pieces between single spaces, empty pieces kept. */
  function Split(s: string): (words: seq<string>)
    ensures |words| >= 1
    ensures forall w :: w in words ==> ' ' !in w
  {
    if s == [] then [""]
    else if s[0] == ' ' then [""] + Split(s[1..])
    else
      var rest := Split(s[1..]);
      [[s[0]] + rest[0]] + rest[1..]
  }

  /** `words.join(" ")` */
  function Join(words: seq<string>): string
  {
    if |words| <= 1 then (if words == [] then "" else words[0])
    else words[0] + " " + Join(words[1..])
  }

  /** Joining the pieces with single spaces gives back the original string. */
  lemma {:induction false} JoinSplit(s: string)
    ensures Join(Split(s)) == s
  {
    if s == [] {
    } else if s[0] == ' ' {
      JoinSplit(s[1..]);
      assert Split(s) == [""] + Split(s[1..]);
      assert Join(Split(s)) == "" + " " + Join(Split(s[1..]));
    } else {
      var rest := Split(s[1..]);
      JoinSplit(s[1..]);
      if |rest| == 1 {
        assert Join(Split(s)) == [s[0]] + rest[0];
      } else {
        assert Split(s)[1..] == rest[1..];
        assert Join(rest) == rest[0] + " " + Join(rest[1..]);
        assert Join(Split(s)) == ([s[0]] + rest[0]) + " " + Join(rest[1..]);
      }
    }
  }

  /** The characters that begin a word: not a space, and first or after a space. */
  function WordStarts(s: string, atStart: bool): (r: string)
    ensures |r| <= |s|
    ensures forall c :: c in r ==> c in s && c != ' '
  {
    if s == [] then []
    else (if atStart && s[0] != ' ' then [s[0]] else []) + WordStarts(s[1..], s[0] == ' ')
  }

  /** `words.map(w => w.charAt(0)).join("")`: the first character of every non-empty word. */
  function FirstChars(words: seq<string>): string
  {
    if words == [] then []
    else (if words[0] == [] then [] else [words[0][0]]) + FirstChars(words[1..])
  }

  lemma FirstCharsAppend(a: seq<string>, b: seq<string>)
    ensures FirstChars(a + b) == FirstChars(a) + FirstChars(b)
  {
    if a != [] {
      calc {
        FirstChars(a + b);
        (if a[0] == [] then [] else [a[0][0]]) + FirstChars((a + b)[1..]);
        { assert (a + b)[1..] == a[1..] + b; FirstCharsAppend(a[1..], b); }
        (if a[0] == [] then [] else [a[0][0]]) + (FirstChars(a[1..]) + FirstChars(b));
      }
    } else {
      assert a + b == b;
    }
  }

  /** The first characters of the pieces of `split(" ")` are exactly the word starts. */
  lemma {:induction false} FirstCharsOfSplit(s: string)
    ensures FirstChars(Split(s)) == WordStarts(s, true)
    ensures FirstChars(Split(s)[1..]) == WordStarts(s, false)
  {
    if s == [] {
    } else if s[0] == ' ' {
      FirstCharsOfSplit(s[1..]);
      assert Split(s) == [""] + Split(s[1..]);
      assert Split(s)[1..] == Split(s[1..]);
      FirstCharsAppend([""], Split(s[1..]));
    } else {
      var rest := Split(s[1..]);
      FirstCharsOfSplit(s[1..]);
      assert Split(s) == [[s[0]] + rest[0]] + rest[1..];
      assert Split(s)[1..] == rest[1..];
      FirstCharsAppend([[s[0]] + rest[0]], rest[1..]);
    }
  }
}
