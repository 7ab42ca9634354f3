/** Whether a developer has reserved the system, judged by the names of the namespaces that exist. */
module Reservation {
  import opened Text

  // ---------------------------------------------------------------- regular expressions

  datatype Regex =
    | Literal(text: string)
    | Then(first: Regex, second: Regex)
    | Either(left: Regex, right: Regex)
    | Maybe(body: Regex)

  /** The language of an expression. */
  predicate Accepts(re: Regex, s: string)
    decreases re
  {
    match re
    case Literal(text) => s == text
    case Then(first, second) => exists k | 0 <= k <= |s| :: Accepts(first, s[..k]) && Accepts(second, s[k..])
    case Either(left, right) => Accepts(left, s) || Accepts(right, s)
    case Maybe(body) => s == "" || Accepts(body, s)
  }

  /** MatchString for an expression anchored at the start only. */
  predicate MatchesPrefix(re: Regex, s: string) {
    exists k | 0 <= k <= |s| :: Accepts(re, s[..k])
  }

  // ---------------------------------------------------------------- the search

  predicate IsLetter(c: char) {
    IsUpper(c) || IsLower(c)
  }

  /** Letters but for one space between two of them. */
  predicate SpaceAt(developer: string, i: int) {
    && 0 < i < |developer| - 1
    && developer[i] == ' '
    && (forall j | 0 <= j < |developer| && j != i :: IsLetter(developer[j]))
  }

  /** A first and a last name of letters only. */
  predicate IsName(developer: string) {
    exists i | 0 < i < |developer| - 1 :: SpaceAt(developer, i)
  }

  lemma {:induction false} OnlySpace(developer: string, i: int)
    requires SpaceAt(developer, i)
    ensures forall j | 0 <= j < |developer| :: ToLower(developer)[j] == ' ' <==> j == i
  {
  }

  lemma {:induction false} SpaceIndex(developer: string, i: int)
    requires SpaceAt(developer, i)
    ensures Index(ToLower(developer), " ") == i
  {
    var lower := ToLower(developer);
    OnlySpace(developer, i);
    assert lower[i..i + 1] == " ";
    assert At(lower, " ", i);
    var r := Index(lower, " ");
    assert lower[r] == lower[r..r + 1][0];
  }

  /** strings.Cut(strings.ToLower(developer), " ") */
  function Cut(developer: string): (r: (string, string))
    requires IsName(developer)
    ensures r.0 + " " + r.1 == ToLower(developer)
    ensures ' ' !in r.0 && ' ' !in r.1 && r.0 != "" && r.1 != ""
  {
    CutAtSpace(developer);
    var lower := ToLower(developer);
    var i := Index(lower, " ");
    (lower[..i], lower[i + 1..])
  }

  lemma {:induction false} CutAtSpace(developer: string)
    requires IsName(developer)
    ensures var lower := ToLower(developer);
            var i := Index(lower, " ");
            && 0 < i < |lower| - 1 && lower[..i] + " " + lower[i + 1..] == lower
            && ' ' !in lower[..i] && ' ' !in lower[i + 1..]
  {
    var i :| 0 < i < |developer| - 1 && SpaceAt(developer, i);
    SpaceIndex(developer, i);
    OnlySpace(developer, i);
  }

  lemma {:induction false} OneBlank(a: string, b: string, c: string, d: string)
    requires a + " " + b == c + " " + d && ' ' !in a && ' ' !in c
    ensures a == c && b == d
  {
    var s, t := a + " " + b, c + " " + d;
    assert s[|a|] == ' ' && t[|c|] == ' ';
    assert forall i | 0 <= i < |a| :: s[i] == a[i] && s[i] in a;
    assert forall i | 0 <= i < |c| :: t[i] == c[i] && t[i] in c;
    assert s[..|a|] == a && t[..|c|] == c;
    assert s[|a| + 1..] == b && t[|c| + 1..] == d;
  }

  /** First and last name, in small letters. */
  lemma {:induction false} CutNames(first: string, last: string)
    requires ' ' !in first && IsName(first + " " + last)
    ensures Cut(first + " " + last) == (ToLower(first), ToLower(last))
  {
    var (a, b) := Cut(first + " " + last);
    ToLowerConcat(first + " ", last);
    ToLowerConcat(first, " ");
    assert ToLower(" ") == " ";
    OneBlank(a, b, ToLower(first), ToLower(last));
  }

  /** first-?(last|l)? */
  function Pattern(developer: string): Regex
    requires IsName(developer)
  {
    var (first, last) := Cut(developer);
    Then(Literal(first), Then(Maybe(Literal("-")), Maybe(Either(Literal(last), Literal(last[..1])))))
  }

  predicate HasNamespace(developer: string, namespaces: seq<string>)
    requires IsName(developer)
  {
    exists name | name in namespaces :: Cut(developer).0 <= name
  }

  lemma {:induction false} LiteralFirst(text: string, rest: Regex, s: string)
    requires Accepts(Then(Literal(text), rest), s)
    ensures text <= s
  {
  }

  lemma {:induction false} LiteralAlone(text: string, rest: Regex)
    requires Accepts(rest, "")
    ensures Accepts(Then(Literal(text), rest), text)
  {
    assert text[..|text|] == text && text[|text|..] == "";
    assert Accepts(Literal(text), text[..|text|]);
  }

  lemma {:induction false} OptionalPair(a: Regex, b: Regex, s: string)
    requires s == ""
    ensures Accepts(Then(Maybe(a), Maybe(b)), s)
  {
    assert Accepts(Maybe(a), s) && Accepts(Maybe(b), s);
    assert s[..0] == s && s[0..] == s;
  }

  /** Everything after the first name is optional and nothing has to follow it, so the first name decides. */
  lemma {:induction false} PatternIsFirstName(developer: string, name: string)
    requires IsName(developer)
    ensures MatchesPrefix(Pattern(developer), name) <==> Cut(developer).0 <= name
  {
    var first := Cut(developer).0;
    var rest := Pattern(developer).second;
    FirstNameDecides(first, rest, name, Pattern(developer));
    OptionalPair(rest.first.body, rest.second.body, "");
  }

  lemma {:induction false} FirstNameDecides(first: string, rest: Regex, name: string, re: Regex)
    requires re == Then(Literal(first), rest)
    ensures MatchesPrefix(re, name) ==> first <= name
    ensures first <= name && Accepts(rest, "") ==> MatchesPrefix(re, name)
  {
    if MatchesPrefix(re, name) {
      var k :| 0 <= k <= |name| && Accepts(re, name[..k]);
      LiteralFirst(first, rest, name[..k]);
    }
    if first <= name && Accepts(rest, "") {
      LiteralAlone(first, rest);
      assert name[..|first|] == first;
    }
  }

  method AnyMatches(developer: string, namespaces: seq<string>) returns (found: bool)
    requires IsName(developer)
    ensures found <==> HasNamespace(developer, namespaces)
  {
    var re := Pattern(developer);
    for k := 0 to |namespaces|
      invariant forall j | 0 <= j < k :: !(Cut(developer).0 <= namespaces[j])
    {
      PatternIsFirstName(developer, namespaces[k]);
      if MatchesPrefix(re, namespaces[k]) {
        assert namespaces[k] in namespaces;
        return true;
      }
    }
    return false;
  }

  predicate AreNames(developers: seq<string>) {
    forall developer | developer in developers :: IsName(developer)
  }

  /** The first in the list who has a namespace. */
  predicate Earliest(developers: seq<string>, namespaces: seq<string>, i: nat)
    requires AreNames(developers)
  {
    && i < |developers|
    && HasNamespace(developers[i], namespaces)
    && forall j | 0 <= j < i :: !HasNamespace(developers[j], namespaces)
  }

  /** The earliest developer in the list who has a namespace; "" exactly if there is none. */
  method IsReserved(developers: seq<string>, namespaces: seq<string>) returns (reserved: bool, owner: string)
    requires AreNames(developers)
    ensures reserved <==> exists i: nat :: Earliest(developers, namespaces, i)
    ensures reserved <==> exists developer | developer in developers :: HasNamespace(developer, namespaces)
    ensures reserved ==> exists i: nat :: Earliest(developers, namespaces, i) && owner == developers[i]
    ensures !reserved ==> owner == ""
  {
    for i := 0 to |developers|
      invariant forall j | 0 <= j < i :: !HasNamespace(developers[j], namespaces)
    {
      var found := AnyMatches(developers[i], namespaces);
      if found {
        assert Earliest(developers, namespaces, i);
        return true, developers[i];
      }
    }
    return false, "";
  }

  const AUTHORIZED_DEVELOPERS := [
    "Abhishek Girish",
    "Ben Landsteiner",
    "Blake Devcich",
    "Bryce Devcich",
    "Dean Roehrich",
    "Matt Richerson",
    "Tom Albers",
    "Tony Floeder",
    "Tim McCree"
  ]

  lemma {:induction false} NameAt(developer: string, i: nat)
    requires SpaceAt(developer, i)
    ensures IsName(developer)
  {
  }

  lemma {:induction false} FirstThree()
    ensures AreNames(AUTHORIZED_DEVELOPERS[..3])
  {
    NameAt("Abhishek Girish", 8);
    NameAt("Ben Landsteiner", 3);
    NameAt("Blake Devcich", 5);
  }

  lemma {:induction false} NextThree()
    ensures AreNames(AUTHORIZED_DEVELOPERS[3..][..3])
  {
    NameAt("Bryce Devcich", 5);
    NameAt("Dean Roehrich", 4);
    NameAt("Matt Richerson", 4);
  }

  lemma {:induction false} LastThree()
    ensures AreNames(AUTHORIZED_DEVELOPERS[3..][3..])
  {
    NameAt("Tom Albers", 3);
    NameAt("Tony Floeder", 4);
    NameAt("Tim McCree", 3);
  }

  /** The list in the program can be searched. */
  lemma {:induction false} AuthorizedDevelopersAreNames()
    ensures AreNames(AUTHORIZED_DEVELOPERS)
  {
    FirstThree();
    NextThree();
    LastThree();
    NamesConcat(AUTHORIZED_DEVELOPERS[3..], 3);
    NamesConcat(AUTHORIZED_DEVELOPERS, 3);
  }

  lemma {:induction false} NamesConcat(developers: seq<string>, n: nat)
    requires n <= |developers| && AreNames(developers[..n]) && AreNames(developers[n..])
    ensures AreNames(developers)
  {
    assert developers == developers[..n] + developers[n..];
  }
}
