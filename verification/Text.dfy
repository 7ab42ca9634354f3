/** The string functions of the Go standard library that the test harness relies on (ASCII only). */
module Text {

  predicate At(s: string, sub: string, i: int) {
    0 <= i && i + |sub| <= |s| && s[i..i + |sub|] == sub
  }

  function IndexFrom(s: string, sub: string, i: nat): (r: int)
    ensures r == -1 || (i <= r && At(s, sub, r))
    ensures forall j :: i <= j && At(s, sub, j) ==> 0 <= r <= j
    decreases |s| - i
  {
    if i + |sub| > |s| then -1
    else if At(s, sub, i) then i
    else IndexFrom(s, sub, i + 1)
  }

  /** strings.Index: the first position of sub in s, or -1. */
  function Index(s: string, sub: string): (r: int)
    ensures r == -1 || At(s, sub, r)
    ensures forall j :: At(s, sub, j) ==> 0 <= r <= j
  {
    IndexFrom(s, sub, 0)
  }

  predicate Contains(s: string, sub: string) {
    Index(s, sub) >= 0
  }

  predicate IsUpper(c: char) {
    'A' <= c <= 'Z'
  }

  predicate IsLower(c: char) {
    'a' <= c <= 'z'
  }

  predicate IsDigit(c: char) {
    '0' <= c <= '9'
  }

  function LowerChar(c: char): char {
    if IsUpper(c) then (c as int + 32) as char else c
  }

  function UpperChar(c: char): char {
    if IsLower(c) then (c as int - 32) as char else c
  }

  /** The letters of the alphabet in their order, and no other characters, change case. */
  lemma {:induction false} CaseByAlphabet(c: char)
    ensures IsUpper(c) ==> IsLower(LowerChar(c)) && LowerChar(c) as int - 'a' as int == c as int - 'A' as int
    ensures !IsUpper(c) ==> LowerChar(c) == c
    ensures IsLower(c) ==> IsUpper(UpperChar(c)) && LowerChar(UpperChar(c)) == c
    ensures !IsLower(c) ==> UpperChar(c) == c
  {
  }

  function ToLower(s: string): (r: string)
    ensures |r| == |s| && forall i :: 0 <= i < |s| ==> r[i] == LowerChar(s[i])
  {
    seq(|s|, i requires 0 <= i < |s| => LowerChar(s[i]))
  }

  lemma {:induction false} ToLowerConcat(a: string, b: string)
    ensures ToLower(a + b) == ToLower(a) + ToLower(b)
  {
  }

  predicate IsSeparator(c: char) {
    !(IsUpper(c) || IsLower(c) || IsDigit(c) || c == '_')
  }

  /** strings.Title: the first letter of every word in upper case. */
  function Title(s: string): (r: string)
    ensures |r| == |s|
  {
    seq(|s|, i requires 0 <= i < |s| => if i == 0 || IsSeparator(s[i - 1]) then UpperChar(s[i]) else s[i])
  }

  /** Only the first letter of a word is put in upper case: at the start, or behind anything but a letter, a
      digit or an underscore. */
  lemma {:induction false} TitleAt(s: string, i: nat)
    requires i < |s|
    ensures i == 0 || s[i - 1] in " -./*()" ==> Title(s)[i] == UpperChar(s[i])
    ensures i > 0 && ('a' <= s[i - 1] <= 'z' || 'A' <= s[i - 1] <= 'Z' || '0' <= s[i - 1] <= '9' || s[i - 1] == '_') ==>
              Title(s)[i] == s[i]
  {
  }

  /** strings.Replace(s, part, other, 1). */
  function ReplaceFirst(s: string, part: string, other: string): string {
    var i := Index(s, part);
    if i == -1 then s else s[..i] + other + s[i + |part|..]
  }

  function RemoveFirst(s: string, part: string): string {
    ReplaceFirst(s, part, "")
  }

  /** Splitting at every occurrence of a character; n separators give n + 1 parts. */
  function Split(s: string, c: char): (parts: seq<string>)
    ensures parts != [] && forall p | p in parts :: c !in p
  {
    if s == "" then [""]
    else
      var rest := Split(s[1..], c);
      if s[0] == c then [""] + rest else [[s[0]] + rest[0]] + rest[1..]
  }

  function Join(parts: seq<string>, c: char): string {
    if parts == [] then ""
    else if |parts| == 1 then parts[0]
    else parts[0] + [c] + Join(parts[1..], c)
  }

  lemma {:induction false} SplitConcat(a: string, b: string, c: char)
    ensures Split(a + [c] + b, c) == Split(a, c) + Split(b, c)
    decreases |a|
  {
    var s := a + [c] + b;
    if a == "" {
      assert s[1..] == b;
    } else {
      assert s[1..] == a[1..] + [c] + b;
      SplitConcat(a[1..], b, c);
    }
  }

  lemma {:induction false} SplitNone(s: string, c: char)
    requires c !in s
    ensures Split(s, c) == [s]
    decreases |s|
  {
    if s != "" {
      SplitNone(s[1..], c);
      assert s == [s[0]] + s[1..];
    }
  }

  /** Splitting undoes joining. */
  lemma {:induction false} SplitJoin(parts: seq<string>, c: char)
    requires parts != [] && forall p | p in parts :: c !in p
    ensures Split(Join(parts, c), c) == parts
    decreases |parts|
  {
    SplitNone(parts[0], c);
    if |parts| > 1 {
      SplitJoin(parts[1..], c);
      SplitConcat(parts[0], Join(parts[1..], c), c);
    }
  }

  lemma {:induction false} JoinConcat(a: seq<string>, b: seq<string>, c: char)
    requires a != [] && b != []
    ensures Join(a + b, c) == Join(a, c) + [c] + Join(b, c)
    decreases |a|
  {
    if |a| == 1 {
      assert (a + b)[1..] == b;
    } else {
      assert (a + b)[1..] == a[1..] + b;
      JoinConcat(a[1..], b, c);
      assert a[0] + [c] + (Join(a[1..], c) + [c] + Join(b, c)) == a[0] + [c] + Join(a[1..], c) + [c] + Join(b, c);
    }
  }
}
