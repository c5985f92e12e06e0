/** Character helpers shared by the display code. Only the ASCII part of JavaScript's
    `toUpperCase` is modelled; every other character is left as it is. */
module Text {

  predicate IsAsciiLower(c: char) { 'a' <= c <= 'z' }

  predicate IsAsciiUpper(c: char) { 'A' <= c <= 'Z' }

  predicate IsDigit(c: char) { '0' <= c <= '9' }

  /** Membership in the regular-expression class `[A-Za-z0-9]`. */
  predicate IsAlnum(c: char) { IsAsciiLower(c) || IsAsciiUpper(c) || IsDigit(c) }

  /** Membership in the regular-expression class `\w`, i.e. `[A-Za-z0-9_]`. */
  predicate IsWordChar(c: char) { IsAlnum(c) || c == '_' }

  function Upper(c: char): (r: char)
    ensures IsAsciiLower(c) ==> IsAsciiUpper(r) && r as int == c as int - 32
    ensures !IsAsciiLower(c) ==> r == c
  {
    if IsAsciiLower(c) then (c as int - 32) as char else c
  }

  lemma UpperIdempotent(c: char)
    ensures Upper(Upper(c)) == Upper(c)
    ensures IsAlnum(Upper(c)) <==> IsAlnum(c)
  {
  }

  /** `s.toUpperCase()` restricted to ASCII. */
  function UpperString(s: string): (r: string)
    ensures |r| == |s|
    ensures forall i :: 0 <= i < |s| ==> r[i] == Upper(s[i])
  {
    seq(|s|, i requires 0 <= i < |s| => Upper(s[i]))
  }

  /** `s.split(" ")`: the pieces between single spaces, so `n` spaces give `n + 1`
      pieces, some of them empty. */
  function SplitSpaces(s: string): (parts: seq<string>)
    ensures |parts| >= 1
    ensures forall j :: 0 <= j < |parts| ==> ' ' !in parts[j]
  {
    if |s| == 0 then [""]
    else
      var rest := SplitSpaces(s[1..]);
      if s[0] == ' ' then [""] + rest
      else [[s[0]] + rest[0]] + rest[1..]
  }

  /** `parts.join(" ")`. */
  function JoinSpaces(parts: seq<string>): string {
    if |parts| == 0 then ""
    else if |parts| == 1 then parts[0]
    else parts[0] + " " + JoinSpaces(parts[1..])
  }

  /** Joining the pieces with single spaces gives back the string. */
  lemma {:induction false} SplitJoin(s: string)
    ensures JoinSpaces(SplitSpaces(s)) == s
  {
    if |s| > 0 {
      var rest := SplitSpaces(s[1..]);
      SplitJoin(s[1..]);
      if s[0] == ' ' {
        assert SplitSpaces(s) == [""] + rest;
        assert ([""] + rest)[1..] == rest;
        assert s == "" + " " + s[1..];
      } else {
        var parts := SplitSpaces(s);
        assert parts == [[s[0]] + rest[0]] + rest[1..];
        if |rest| == 1 {
          assert JoinSpaces(parts) == [s[0]] + rest[0];
        } else {
          assert parts[1..] == rest[1..];
          assert JoinSpaces(rest) == rest[0] + " " + JoinSpaces(rest[1..]);
          assert JoinSpaces(parts) == [s[0]] + rest[0] + " " + JoinSpaces(rest[1..]);
        }
        assert s == [s[0]] + s[1..];
      }
    }
  }

  /** `.map(n => n[0]).join("")`: the first character of every piece; an empty piece
      maps to `undefined`, which `join` prints as nothing. */
  function FirstChars(parts: seq<string>): string {
    if |parts| == 0 then ""
    else (if |parts[0]| > 0 then [parts[0][0]] else "") + FirstChars(parts[1..])
  }

  /** Reference definition: the characters that begin a run of non-space characters,
      scanning left to right; `afterSpace` says whether the previous character (or the
      start of the string) allows a run to begin. */
  function WordStarts(s: string, afterSpace: bool): string {
    if |s| == 0 then ""
    else (if s[0] != ' ' && afterSpace then [s[0]] else "") + WordStarts(s[1..], s[0] == ' ')
  }

  /** The first characters of the split pieces are exactly the word starts; the pieces
      after the first carry the word starts that follow a space. */
  lemma {:induction false} FirstCharsAreWordStarts(s: string)
    ensures FirstChars(SplitSpaces(s)) == WordStarts(s, true)
    ensures FirstChars(SplitSpaces(s)[1..]) == WordStarts(s, false)
  {
    if |s| > 0 {
      var rest := SplitSpaces(s[1..]);
      FirstCharsAreWordStarts(s[1..]);
      if s[0] == ' ' {
        assert SplitSpaces(s) == [""] + rest;
        assert ([""] + rest)[1..] == rest;
        assert FirstChars([""] + rest) == FirstChars(rest);
      } else {
        var parts := [[s[0]] + rest[0]] + rest[1..];
        assert SplitSpaces(s) == parts;
        assert parts[1..] == rest[1..];
        assert FirstChars(parts) == [s[0]] + FirstChars(rest[1..]);
      }
    }
  }

  /** `name.split(" ").map(n => n[0]).join("").toUpperCase()`. */
  function NameInitials(name: string): (r: string)
    ensures r == UpperString(WordStarts(name, true))
  {
    FirstCharsAreWordStarts(name);
    UpperString(FirstChars(SplitSpaces(name)))
  }
}
