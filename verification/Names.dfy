/** Names of workflows, numbered tests and numbered storages. */
module Names {
  import opened Text

  function Digit(d: nat): char
    requires d < 10
  {
    (('0' as int) + d) as char
  }

  function Decimal(n: nat): (s: string)
    ensures s != [] && forall i :: 0 <= i < |s| ==> IsDigit(s[i])
  {
    if n < 10 then [Digit(n)] else Decimal(n / 10) + [Digit(n % 10)]
  }

  lemma {:induction false} DecimalIsInjective(a: nat, b: nat)
    requires Decimal(a) == Decimal(b)
    ensures a == b
  {
    var s := Decimal(a);
    assert s[|s| - 1] == Digit(a % 10) == Digit(b % 10);
    if a >= 10 && b >= 10 {
      assert Decimal(a / 10) == s[..|s| - 1] == Decimal(b / 10);
      DecimalIsInjective(a / 10, b / 10);
    }
  }

  /** The number that a string of digits denotes, the most significant first. */
  function Value(digits: string): int {
    if digits == "" then 0
    else Value(digits[..|digits| - 1]) * 10 + (digits[|digits| - 1] as int - '0' as int)
  }

  /** Decimal writes the number in base ten, without leading zeros. */
  lemma {:induction false} DecimalValue(n: nat)
    ensures Value(Decimal(n)) == n
    ensures Decimal(n)[0] == '0' <==> n == 0
  {
    if n >= 10 {
      DecimalValue(n / 10);
      assert Decimal(n)[..|Decimal(n)| - 1] == Decimal(n / 10);
    } else {
      assert Decimal(n)[..0] == "";
    }
  }

  function Numbered(name: string, i: nat): string {
    name + "-" + Decimal(i)
  }

  lemma {:induction false} NumberedIsInjective(name: string, i: nat, j: nat)
    requires Numbered(name, i) == Numbered(name, j)
    ensures i == j
  {
    assert Numbered(name, i)[|name| + 1..] == Decimal(i);
    assert Numbered(name, j)[|name| + 1..] == Decimal(j);
    DecimalIsInjective(i, j);
  }

  // ---------------------------------------------------------------- the name in the text of a directive

  /** An argument of a directive: no blanks in it, and one before it. */
  predicate IsArgument(before: string, arg: string) {
    arg != "" && ' ' !in arg && before != "" && before[|before| - 1] == ' '
  }

  /** An occurrence that starts before the argument also ends there, and not right at its end. */
  lemma {:induction false} OccursBefore(before: string, arg: string, after: string, i: int)
    requires IsArgument(before, arg) && At(before + arg + after, arg, i) && i < |before|
    ensures i + |arg| < |before| && At(before, arg, i)
  {
    var s := before + arg + after;
    assert s[|before| - 1] == ' ';
    assert forall j | i <= j < i + |arg| :: s[j] == s[i..i + |arg|][j - i] && s[j] in arg;
    assert s[i..i + |arg|] == before[i..i + |arg|];
  }

  lemma {:induction false} OccursLonger(before: string, more: string, arg: string, i: int)
    requires At(before, arg, i)
    ensures At(before + more, arg, i)
  {
    assert (before + more)[i..i + |arg|] == before[i..i + |arg|];
  }

  lemma {:induction false} ArgumentPosition(before: string, arg: string, after: string)
    requires IsArgument(before, arg)
    ensures var i := Index(before + arg + after, arg);
            0 <= i <= |before| && (i == |before| <==> !Contains(before, arg))
  {
    var s := before + arg + after;
    assert s[|before|..|before| + |arg|] == arg;
    assert At(s, arg, |before|);
    if Index(s, arg) < |before| {
      OccursBefore(before, arg, after, Index(s, arg));
    }
    if Contains(before, arg) {
      OccursLonger(before, arg + after, arg, Index(before, arg));
      assert before + (arg + after) == s;
    }
  }

  lemma {:induction false} FirstBlank(x: string) returns (k: nat)
    requires ' ' in x
    ensures k < |x| && x[k] == ' ' && ' ' !in x[..k]
    decreases |x|
  {
    if x[0] == ' ' {
      k := 0;
    } else {
      k := FirstBlank(x[1..]);
      assert x[..k + 1] == [x[0]] + x[1..][..k];
      k := k + 1;
    }
  }

  /** Text with a blank in it does not read the same after and before some text without one. */
  lemma {:induction false} BlankMoves(x: string, u: string)
    requires ' ' in x && ' ' !in u && u != ""
    ensures u + x != x + u
  {
    var k := FirstBlank(x);
    assert (x + u)[k] == ' ';
    assert (u + x)[k] in u + x[..k];
  }

  lemma {:induction false} BetweenDiffers(a: string, x: string, y: string, b: string)
    requires |x| == |y| && x != y
    ensures a + x + b != a + y + b
  {
    assert (a + x + b)[|a|..|a| + |x|] == x;
    assert (a + y + b)[|a|..|a| + |x|] == y;
  }

  lemma {:induction false} InsertedElsewhere(s: string, u: string, p: nat, q: nat)
    requires p <= q <= |s| && ' ' in s[p..q] && ' ' !in u && u != ""
    ensures s[..p] + u + s[p..] != s[..q] + u + s[q..]
  {
    var x := s[p..q];
    assert s[..p] + u + s[p..] == s[..p] + (u + x) + s[q..];
    assert s[..q] + u + s[q..] == s[..p] + (x + u) + s[q..];
    BlankMoves(x, u);
    BetweenDiffers(s[..p], u + x, x + u, s[q..]);
  }

  lemma {:induction false} NumberHasNoBlank(i: nat)
    ensures ' ' !in "-" + Decimal(i)
  {
  }

  /** To replace a part by itself and some more is to insert more behind it. */
  lemma {:induction false} ReplacedIsInserted(s: string, arg: string, u: string, j: int)
    requires At(s, arg, j)
    ensures s[..j] + (arg + u) + s[j + |arg|..] == s[..j + |arg|] + u + s[j + |arg|..]
  {
    assert s[..j + |arg|] == s[..j] + arg;
  }

  lemma {:induction false} BlankBetween(before: string, arg: string, after: string, p: nat)
    requires IsArgument(before, arg) && p < |before|
    ensures ' ' in (before + arg + after)[p..|before| + |arg|]
  {
    assert (before + arg + after)[p..|before| + |arg|][|before| - 1 - p] == ' ';
  }

  /** Numbering an argument by replacing its first occurrence in the text numbers that argument exactly
      if its text does not occur, as part of another argument, before it. */
  lemma {:induction false} NameReplaced(before: string, arg: string, after: string, i: nat)
    requires IsArgument(before, arg)
    ensures ReplaceFirst(before + arg + after, arg, Numbered(arg, i)) == before + Numbered(arg, i) + after <==>
            !Contains(before, arg)
  {
    var s, u, q := before + arg + after, "-" + Decimal(i), |before| + |arg|;
    var j := Index(s, arg);
    ArgumentPosition(before, arg, after);
    NumberHasNoBlank(i);
    assert Numbered(arg, i) == arg + u;
    ReplacedIsInserted(s, arg, u, j);
    assert s[..q] == before + arg && s[q..] == after && s[..|before|] == before;
    ReplacedIsInserted(s, arg, u, |before|);
    if j < |before| {
      OccursBefore(before, arg, after, j);
      BlankBetween(before, arg, after, j + |arg|);
      InsertedElsewhere(s, u, j + |arg|, q);
    }
  }

  // ---------------------------------------------------------------- names of resources

  function SpaceToDash(s: string): (r: string)
    ensures |r| == |s| && forall i :: 0 <= i < |s| ==> r[i] == if s[i] == ' ' then '-' else s[i]
  {
    seq(|s|, i requires 0 <= i < |s| => if s[i] == ' ' then '-' else s[i])
  }

  /** The name of the workflow resource of a test. */
  function WorkflowName(name: string): string {
    ToLower(SpaceToDash(name))
  }

  /** Blanks become hyphens, capitals become small letters, everything else stays. */
  lemma {:induction false} WorkflowNameAt(name: string, i: nat)
    requires i < |name|
    ensures |WorkflowName(name)| == |name|
    ensures name[i] == ' ' ==> WorkflowName(name)[i] == '-'
    ensures 'A' <= name[i] <= 'Z' ==>
              'a' <= WorkflowName(name)[i] <= 'z' &&
              WorkflowName(name)[i] as int - 'a' as int == name[i] as int - 'A' as int
    ensures name[i] != ' ' && !('A' <= name[i] <= 'Z') ==> WorkflowName(name)[i] == name[i]
  {
    CaseByAlphabet(SpaceToDash(name)[i]);
  }

  lemma {:induction false} WorkflowNameConcat(a: string, b: string)
    ensures WorkflowName(a + b) == WorkflowName(a) + WorkflowName(b)
  {
  }

  lemma {:induction false} WorkflowNameOfNumbered(name: string, i: nat)
    ensures WorkflowName(Numbered(name, i)) == Numbered(WorkflowName(name), i)
  {
    WorkflowNameConcat(name + "-", Decimal(i));
    WorkflowNameConcat(name, "-");
    assert WorkflowName("-") == "-";
    assert WorkflowName(Decimal(i)) == Decimal(i);
  }

  /** Numbered tests get different workflows, whatever spaces and capitals their name has. */
  lemma {:induction false} NumberedWorkflowsDiffer(name: string, i: nat, j: nat)
    requires WorkflowName(Numbered(name, i)) == WorkflowName(Numbered(name, j))
    ensures i == j
  {
    WorkflowNameOfNumbered(name, i);
    WorkflowNameOfNumbered(name, j);
    NumberedIsInjective(WorkflowName(name), i, j);
  }

  lemma {:induction false} CreateAndDestroyDiffer(name: string)
    ensures WorkflowName(name + "-create") != WorkflowName(name + "-destroy")
  {
    WorkflowNameConcat(name, "-create");
    WorkflowNameConcat(name, "-destroy");
    assert |"-create"| != |"-destroy"|;
  }
}
