/**
 * Deriving one release branch of a gitops repository from another: bootstrap files are renamed and
 * edited in place, and the upgrade tester checks the result.
 */
module Gitops {
  import opened Wrappers
  import opened Text

  /** A file below environments/<env>. */
  datatype Path = Path(dir: string, file: string)

  type Files = map<Path, seq<string>>

  predicate EndsWith(s: string, suffix: string) {
    |suffix| <= |s| && s[|s| - |suffix|..] == suffix
  }

  const KUSTOMIZATION := "kustomization.yaml"

  predicate Hidden(name: string) {
    name != "" && name[0] == '.'
  }

  /** What the globs over bootstrap directories match; a wildcard does not reach into a directory. */
  predicate IsActive(p: Path) {
    && Contains(p.dir, "bootstrap") && !Hidden(p.dir) && '/' !in p.dir
    && EndsWith(p.file, ".yaml") && !Hidden(p.file) && '/' !in p.file
  }

  predicate IsApplication(p: Path) {
    IsActive(p) && p.file != KUSTOMIZATION
  }

  // ---------------------------------------------------------------- line edits

  /** A basic regular expression of literal characters and dots, at the start of a line. */
  predicate MatchesStart(line: string, pattern: string) {
    |pattern| <= |line| && forall i | 0 <= i < |pattern| :: pattern[i] == '.' || line[i] == pattern[i]
  }

  predicate MatchesEnd(line: string, pattern: string) {
    |pattern| <= |line| && MatchesStart(line[|line| - |pattern|..], pattern)
  }

  function Comment(line: string, pattern: string): string {
    if MatchesStart(line, pattern) then "#" + line else line
  }

  predicate Commented(line: string, pattern: string) {
    line != "" && line[0] == '#' && MatchesStart(line[1..], pattern)
  }

  function Uncomment(line: string, pattern: string): string {
    if Commented(line, pattern) then line[1..] else line
  }

  const REVISION := "targetRevision: "

  function Indent(line: string): (n: nat)
    ensures n <= |line| && (forall i | 0 <= i < n :: line[i] == ' ')
    ensures n < |line| ==> line[n] != ' '
  {
    if line != "" && line[0] == ' ' then 1 + Indent(line[1..]) else 0
  }

  predicate HasRevision(line: string) {
    REVISION <= line[Indent(line)..]
  }

  /** Keeps indentation and key, replaces the value. */
  function SetRevision(line: string, branch: string): string {
    if HasRevision(line) then line[..Indent(line)] + REVISION + branch else line
  }

  predicate Blanks(pad: string) {
    forall c | c in pad :: c == ' '
  }

  /** The line is some blanks, the key and a value. */
  predicate RevisionLine(line: string, pad: string, value: string) {
    Blanks(pad) && line == pad + "targetRevision: " + value
  }

  /** Setting the branch of a revision line keeps its indentation and replaces its value. */
  lemma {:induction false} SetRevisionOf(pad: string, value: string, branch: string)
    requires Blanks(pad)
    ensures HasRevision(pad + "targetRevision: " + value)
    ensures SetRevision(pad + "targetRevision: " + value, branch) == pad + "targetRevision: " + branch
  {
    var line := pad + ("targetRevision: " + value);
    assert forall i | 0 <= i < |pad| :: pad[i] in pad;
    IndentAt(|pad|, pad, "targetRevision: " + value);
    assert line == pad + "targetRevision: " + value;
    assert line[..|pad|] == pad && line[|pad|..] == "targetRevision: " + value;
  }

  lemma {:induction false} RevisionParts(line: string) returns (pad: string, value: string)
    requires HasRevision(line)
    ensures RevisionLine(line, pad, value)
  {
    var i := Indent(line);
    pad, value := line[..i], line[i + |REVISION|..];
    assert line[i..] == REVISION + line[i..][|REVISION|..];
    assert line == pad + (REVISION + value);
  }

  /** What a line becomes when the branch is set. */
  ghost predicate Retargeted(line: string, edited: string, branch: string) {
    && (forall pad, value | RevisionLine(line, pad, value) :: edited == pad + "targetRevision: " + branch)
    && ((forall pad, value :: !RevisionLine(line, pad, value)) ==> edited == line)
  }

  lemma {:induction false} SetRevisionRetargets(line: string, branch: string)
    ensures Retargeted(line, SetRevision(line, branch), branch)
  {
    forall pad, value | RevisionLine(line, pad, value)
      ensures SetRevision(line, branch) == pad + "targetRevision: " + branch
    {
      SetRevisionOf(pad, value, branch);
    }
    if HasRevision(line) {
      var pad, value := RevisionParts(line);
    }
  }

  ghost predicate RetargetedLines(lines: seq<string>, edited: seq<string>, branch: string) {
    |edited| == |lines| && forall i | 0 <= i < |lines| :: Retargeted(lines[i], edited[i], branch)
  }

  lemma {:induction false} RetargetRetargets(lines: seq<string>, branch: string)
    ensures RetargetedLines(lines, Retarget(lines, branch), branch)
  {
    forall i | 0 <= i < |lines|
      ensures Retargeted(lines[i], Retarget(lines, branch)[i], branch)
    {
      SetRevisionRetargets(lines[i], branch);
    }
  }

  lemma {:induction false} ContainsExactly(s: string, part: string)
    ensures Contains(s, part) <==> exists a, b :: IsAround(s, a, part, b)
  {
    if Contains(s, part) {
      var i := Index(s, part);
      assert s == s[..i] + part + s[i + |part|..];
      assert IsAround(s, s[..i], part, s[i + |part|..]);
    }
    forall a, b | IsAround(s, a, part, b)
      ensures Contains(s, part)
    {
      assert s[|a|..|a| + |part|] == part;
      assert At(s, part, |a|);
    }
  }

  lemma {:induction false} EndsExactly(s: string, part: string)
    ensures EndsWith(s, part) <==> exists a :: IsAround(s, a, part, "")
  {
    if EndsWith(s, part) {
      assert s == s[..|s| - |part|] + part + "";
      assert IsAround(s, s[..|s| - |part|], part, "");
    }
    forall a | IsAround(s, a, part, "")
      ensures EndsWith(s, part)
    {
      assert s == a + part;
    }
  }

  /** What the globs match, by the parts of the names. */
  lemma {:induction false} ActiveExactly(p: Path)
    ensures IsActive(p) <==>
            && (exists a, b :: IsAround(p.dir, a, "bootstrap", b)) && (exists a :: IsAround(p.file, a, ".yaml", ""))
            && (p.dir != "" ==> p.dir[0] != '.') && (p.file != "" ==> p.file[0] != '.')
            && '/' !in p.dir && '/' !in p.file
    ensures IsApplication(p) <==> IsActive(p) && p.file != "kustomization.yaml"
  {
    ContainsExactly(p.dir, "bootstrap");
    EndsExactly(p.file, ".yaml");
  }

  predicate IsAround(s: string, before: string, part: string, after: string) {
    s == before + part + after
  }

  lemma {:induction false} CommentLine(pattern: string, rest: string)
    ensures Comment(pattern + rest, pattern) == "#" + (pattern + rest)
    ensures Uncomment("#" + (pattern + rest), pattern) == pattern + rest
  {
    var line := pattern + rest;
    assert forall i | 0 <= i < |pattern| :: line[i] == pattern[i];
    assert MatchesStart(line, pattern);
    assert ("#" + line)[1..] == line;
  }

  /** The lines of the helpers: commented out with a hash sign right before them, and in by taking it away. */
  lemma {:induction false} HelperLine(rest: string)
    ensures var line := "- " + "0-storage-version-migrator.yaml" + rest;
            && Comment(line, Pattern(Migrator)) == "#" + line
            && Uncomment("#" + line, Pattern(Migrator)) == line
    ensures var line := "- " + "0-nnf-storedversions-maint.yaml" + rest;
            && Comment(line, Pattern(Maint)) == "#" + line
            && Uncomment("#" + line, Pattern(Maint)) == line
  {
    CommentLine(Pattern(Migrator), rest);
    CommentLine(Pattern(Maint), rest);
  }

  /** No character of the name means anything to sed, and none but the dot to grep. */
  predicate PlainBranch(branch: string) {
    forall c | c in branch :: 'a' <= c <= 'z' || 'A' <= c <= 'Z' || '0' <= c <= '9' || c == '.' || c == '-' || c == '_'
  }

  function Edit(lines: seq<string>, f: string -> string): (r: seq<string>)
    ensures |r| == |lines| && forall i | 0 <= i < |lines| :: r[i] == f(lines[i])
  {
    seq(|lines|, i requires 0 <= i < |lines| => f(lines[i]))
  }

  // ---------------------------------------------------------------- operations on the files

  /** The two CRD upgrade helpers. */
  datatype Helper = Migrator | Maint

  function YamlName(h: Helper): string {
    match h
    case Migrator => "0-storage-version-migrator.yaml"
    case Maint => "0-nnf-storedversions-maint.yaml"
  }

  const BOOTSTRAP := "0-bootstrap1"

  function Yaml(h: Helper): Path { Path(BOOTSTRAP, YamlName(h)) }
  function Orig(h: Helper): Path { Path(BOOTSTRAP, YamlName(h) + "-orig") }
  function Pattern(h: Helper): string { "- " + YamlName(h) }

  const KUST_FILE := Path(BOOTSTRAP, KUSTOMIZATION)

  /** git mv: fails on a missing source or an existing target. */
  function Move(files: Files, from: Path, to: Path): Option<Files> {
    if from !in files || to in files then None else Some((files - {from})[to := files[from]])
  }

  /** sed -i. */
  function EditFile(files: Files, p: Path, f: string -> string): Option<Files> {
    if p !in files then None else Some(files[p := Edit(files[p], f)])
  }

  function Remove(files: Files, h: Helper): Option<Files> {
    match Move(files, Yaml(h), Orig(h))
    case None => None
    case Some(moved) => EditFile(moved, KUST_FILE, line => Comment(line, Pattern(h)))
  }

  function Reenable(files: Files, h: Helper): Option<Files> {
    match Move(files, Orig(h), Yaml(h))
    case None => None
    case Some(moved) => EditFile(moved, KUST_FILE, line => Uncomment(line, Pattern(h)))
  }

  function Retarget(lines: seq<string>, branch: string): seq<string> {
    Edit(lines, line => SetRevision(line, branch))
  }

  function Applications(files: Files): set<Path> {
    set p | p in files && IsApplication(p)
  }

  function SetBranchOf(lines: seq<string>, chosen: bool, branch: string): seq<string> {
    if chosen then Retarget(lines, branch) else lines
  }

  function SetBranchIn(files: Files, chosen: set<Path>, branch: string): (r: Files)
    ensures r.Keys == files.Keys
  {
    map p | p in files :: SetBranchOf(files[p], p in chosen, branch)
  }

  /** Kustomization files keep their lines. */
  function SetBranch(files: Files, branch: string): (r: Files)
    ensures r.Keys == files.Keys
  {
    SetBranchIn(files, Applications(files), branch)
  }

  function Active(files: Files): Files {
    map p | p in files && IsActive(p) :: files[p]
  }

  // ---------------------------------------------------------------- the shell functions

  /** The working tree. */
  class WorkTree {
    var files: Files

    method Mv(from: Path, to: Path) returns (r: Outcome)
      modifies this
      ensures r.Pass? <==> Move(old(files), from, to).Some?
      ensures files == if r.Pass? then Move(old(files), from, to).value else old(files)
    {
      if from !in files || to in files {
        return Fail;
      }
      var content := files[from];
      files := files - {from};
      files := files[to := content];
      return Pass;
    }

    /** Edits a file line by line. */
    method Sed(p: Path, f: string -> string) returns (r: Outcome)
      modifies this
      ensures r.Pass? <==> p in old(files)
      ensures files == if r.Pass? then old(files)[p := Edit(old(files)[p], f)] else old(files)
    {
      if p !in files {
        return Fail;
      }
      var lines := files[p];
      var edited: seq<string> := [];
      for i := 0 to |lines|
        invariant edited == Edit(lines[..i], f)
      {
        edited := edited + [f(lines[i])];
      }
      assert lines[..|lines|] == lines;
      files := files[p := edited];
      return Pass;
    }

    method RemoveHelper(h: Helper) returns (r: Outcome)
      modifies this
      ensures r.Pass? <==> Remove(old(files), h).Some?
      ensures r.Pass? ==> Some(files) == Remove(old(files), h)
    {
      r := Mv(Yaml(h), Orig(h));
      if r.Pass? {
        r := Sed(KUST_FILE, line => Comment(line, Pattern(h)));
      }
    }

    method ReenableHelper(h: Helper) returns (r: Outcome)
      modifies this
      ensures r.Pass? <==> Reenable(old(files), h).Some?
      ensures r.Pass? ==> Some(files) == Reenable(old(files), h)
    {
      r := Mv(Orig(h), Yaml(h));
      if r.Pass? {
        r := Sed(KUST_FILE, line => Uncomment(line, Pattern(h)));
      }
    }

    method SetBranchInApplication(p: Path, branch: string)
      requires p in files
      modifies this
      ensures files == old(files)[p := Retarget(old(files)[p], branch)]
    {
      var r := Sed(p, line => SetRevision(line, branch));
    }

    method SetBranchInEach(apps: set<Path>, branch: string)
      requires apps <= files.Keys
      modifies this
      ensures files == SetBranchIn(old(files), apps, branch)
    {
      var todo := apps;
      ghost var was := files;
      while todo != {}
        invariant files.Keys == was.Keys && todo <= apps
        invariant forall p | p in files :: files[p] == SetBranchOf(was[p], p in apps && p !in todo, branch)
        decreases |todo|
      {
        var p :| p in todo;
        SetBranchInApplication(p, branch);
        todo := todo - {p};
      }
    }

    /** The nested loops over bootstrap directories and their applications. */
    method SetBranchInBootstraps(branch: string)
      requires PlainBranch(branch)
      modifies this
      ensures files == SetBranch(old(files), branch)
      // in each application, and nowhere else, each revision line keeps its indentation and gets the branch
      ensures files.Keys == old(files).Keys
      ensures forall p | p in files && !IsApplication(p) :: files[p] == old(files)[p]
      ensures forall p | p in files && IsApplication(p) :: RetargetedLines(old(files)[p], files[p], branch)
    {
      ghost var was := files;
      SetBranchInEach(Applications(files), branch);
      forall p | p in files && IsApplication(p)
        ensures RetargetedLines(was[p], files[p], branch)
      {
        SetBranchAt(was, branch, p);
        RetargetRetargets(was[p], branch);
      }
    }

    /** What a release does to the helpers for its two branches: h is removed, with or without the other
        one, and for the second branch it is enabled again. */
    method CycleHelper(both: bool, h: Helper) returns (r: Outcome)
      modifies this
      ensures r.Pass? <==> Cycle(old(files), both, h).Some?
      ensures r.Pass? ==> Some(files) == Cycle(old(files), both, h)
    {
      r := RemoveHelper(h);
      if r.Pass? && both {
        r := RemoveHelper(Other(h));
      }
      if r.Pass? {
        r := ReenableHelper(h);
      }
    }

    /** Adds the files of an archive, or replaces them. */
    method Unpack(archive: Files)
      modifies this
      ensures files == old(files) + archive
    {
      files := files + archive;
    }

    /** The second branch of a release, made from the tree set up for the first one. */
    method DeriveBranch(b1: string, both: bool, h: Helper, archive: Files, b2: string) returns (r: Outcome)
      requires PlainBranch(b1) && PlainBranch(b2)
      modifies this
      ensures r.Pass? <==> Derived(old(files), b1, both, h, archive, b2).Some?
      ensures r.Pass? ==> Some(files) == Derived(old(files), b1, both, h, archive, b2)
    {
      SetBranchInBootstraps(b1);
      r := CycleHelper(both, h);
      if r.Pass? {
        Unpack(archive);
        SetBranchInBootstraps(b2);
      }
    }
  }

  function Other(h: Helper): Helper {
    if h == Migrator then Maint else Migrator
  }

  function RemoveOther(files: Files, both: bool, h: Helper): Option<Files> {
    if both then Remove(files, Other(h)) else Some(files)
  }

  /** The tree of the first branch: h is removed, with or without the other helper. */
  function First(files: Files, both: bool, h: Helper): Option<Files> {
    match Remove(files, h)
    case None => None
    case Some(removed) => RemoveOther(removed, both, h)
  }

  function Cycle(files: Files, both: bool, h: Helper): Option<Files> {
    match First(files, both, h)
    case None => None
    case Some(bare) => Reenable(bare, h)
  }

  function Derived(files: Files, b1: string, both: bool, h: Helper, archive: Files, b2: string): Option<Files> {
    match Cycle(SetBranch(files, b1), both, h)
    case None => None
    case Some(again) => Some(SetBranch(again + archive, b2))
  }

  /** The same branch configured directly: at most the other helper is removed. */
  function Direct(files: Files, both: bool, h: Helper, archive: Files, b2: string): Option<Files> {
    RemoveOther(SetBranch(files + archive, b2), both, h)
  }

  /** The archive of a third-party service holds no file that the helper functions work on. */
  predicate Apart(archive: Files) {
    && Yaml(Migrator) !in archive && Orig(Migrator) !in archive
    && Yaml(Maint) !in archive && Orig(Maint) !in archive
    && KUST_FILE !in archive
  }

  // ---------------------------------------------------------------- derived and direct agree

  lemma {:induction false} IndentAt(n: nat, spaces: string, rest: string)
    requires |spaces| == n && (forall i | 0 <= i < n :: spaces[i] == ' ') && (rest != "" ==> rest[0] != ' ')
    ensures Indent(spaces + rest) == n
    decreases n
  {
    if n > 0 {
      assert (spaces + rest)[1..] == spaces[1..] + rest;
      IndentAt(n - 1, spaces[1..], rest);
    } else {
      assert spaces + rest == rest;
    }
  }

  /** Only the last branch that is set counts. */
  lemma {:induction false} SetRevisionTwice(line: string, b1: string, b2: string)
    ensures SetRevision(SetRevision(line, b1), b2) == SetRevision(line, b2)
    ensures HasRevision(SetRevision(line, b1)) <==> HasRevision(line)
  {
    if HasRevision(line) {
      var pad, value := RevisionParts(line);
      SetRevisionOf(pad, value, b1);
      SetRevisionOf(pad, value, b2);
      SetRevisionOf(pad, b1, b2);
    }
  }

  lemma {:induction false} PatternsDiffer(h: Helper, line: string)
    requires MatchesStart(line, Pattern(h))
    ensures !MatchesStart(line, Pattern(Other(h)))
  {
    assert Pattern(h)[4] != '.' && Pattern(Other(h))[4] != '.' && Pattern(h)[4] != Pattern(Other(h))[4];
  }

  function OtherEdit(line: string, both: bool, h: Helper): string {
    if both then Comment(line, Pattern(Other(h))) else line
  }

  function KustLine(line: string, both: bool, h: Helper): string {
    Uncomment(OtherEdit(Comment(line, Pattern(h)), both, h), Pattern(h))
  }

  lemma {:induction false} CommentedLine(line: string, h: Helper, g: Helper)
    ensures !MatchesStart("#" + line, Pattern(g))
    ensures Commented("#" + line, Pattern(h)) <==> MatchesStart(line, Pattern(h))
    ensures Commented(line, Pattern(h)) ==> !MatchesStart(line, Pattern(g))
    ensures ("#" + line)[1..] == line
  {
    assert Pattern(g)[0] == '-';
    assert ("#" + line)[1..] == line;
  }

  /** Commenting a helper out and in again is undone, except on a line that was commented out before. */
  lemma {:induction false} KustLineSame(line: string, both: bool, h: Helper)
    ensures KustLine(line, both, h) == OtherEdit(line, both, h) <==> !Commented(line, Pattern(h))
  {
    CommentedLine(line, h, h);
    CommentedLine(line, h, Other(h));
    if MatchesStart(line, Pattern(h)) {
      PatternsDiffer(h, line);
      assert Pattern(h)[0] == '-';
    } else if MatchesStart(line, Pattern(Other(h))) {
      assert Pattern(Other(h))[0] == '-';
    }
  }

  lemma {:induction false} PathsDiffer(h: Helper)
    ensures Yaml(h) != Orig(h) && Yaml(h) != KUST_FILE && Orig(h) != KUST_FILE
    ensures Yaml(h) != Yaml(Other(h)) && Yaml(h) != Orig(Other(h)) && Orig(h) != Orig(Other(h))
  {
    var o := Other(h);
    assert YamlName(h)[2] != YamlName(o)[2] && Yaml(h).file[2] != Orig(o).file[2];
    assert Orig(h).file[2] != Orig(o).file[2];
    assert YamlName(h)[0] == '0' && YamlName(o)[0] == '0' && KUSTOMIZATION[0] == 'k';
    assert |Orig(h).file| == |YamlName(h)| + 5;
  }

  /** A file has moved; only the edited file may have other lines than before. */
  predicate Shifted(was: Files, now: Files, from: Path, to: Path, edited: Path) {
    && from in was && to !in was && edited in was && edited != from && edited != to
    && now.Keys == was.Keys - {from} + {to}
    && now[to] == was[from]
    && forall p | p in now && p != to && p != edited :: now[p] == was[p]
  }

  lemma {:induction false} MoveBack(a: Files, b: Files, c: Files, y: Path, yo: Path, k: Path)
    requires Shifted(a, b, y, yo, k) && Shifted(b, c, yo, y, k)
    ensures c.Keys == a.Keys && forall p | p in a && p != k :: c[p] == a[p]
  {
  }

  lemma {:induction false} MoveBackAround(a: Files, b: Files, c: Files, d: Files, other: Files,
                       y: Path, yo: Path, z: Path, zo: Path, k: Path)
    requires Shifted(a, b, y, yo, k) && Shifted(b, c, z, zo, k) && Shifted(c, d, yo, y, k)
    requires Shifted(a, other, z, zo, k)
    requires y != z && y != zo && yo != z && yo != zo
    ensures d.Keys == other.Keys && forall p | p in other && p != k :: d[p] == other[p]
  {
  }

  lemma {:induction false} RemoveIs(files: Files, h: Helper)
    ensures Remove(files, h).Some? <==> Yaml(h) in files && Orig(h) !in files && KUST_FILE in files
    ensures Remove(files, h).Some? ==>
              var r := Remove(files, h).value;
              && Shifted(files, r, Yaml(h), Orig(h), KUST_FILE)
              && r[KUST_FILE] == Edit(files[KUST_FILE], line => Comment(line, Pattern(h)))
  {
    PathsDiffer(h);
  }

  lemma {:induction false} ReenableIs(files: Files, h: Helper)
    ensures Reenable(files, h).Some? <==> Orig(h) in files && Yaml(h) !in files && KUST_FILE in files
    ensures Reenable(files, h).Some? ==>
              var r := Reenable(files, h).value;
              && Shifted(files, r, Orig(h), Yaml(h), KUST_FILE)
              && r[KUST_FILE] == Edit(files[KUST_FILE], line => Uncomment(line, Pattern(h)))
  {
    PathsDiffer(h);
  }

  lemma {:induction false} CycleSucceeds(files: Files, both: bool, h: Helper)
    ensures Cycle(files, both, h).Some? <==>
            && RemoveOther(files, both, h).Some?
            && Yaml(h) in files && Orig(h) !in files && KUST_FILE in files
  {
    PathsDiffer(h);
    PathsDiffer(Other(h));
    RemoveIs(files, h);
    if Remove(files, h).Some? {
      var removed := Remove(files, h).value;
      assert KUST_FILE in removed && Orig(h) in removed && Yaml(h) !in removed;
      if both {
        RemoveIs(files, Other(h));
        RemoveIs(removed, Other(h));
      }
    }
    if First(files, both, h).Some? {
      ReenableIs(First(files, both, h).value, h);
    }
  }

  /** Everything but the kustomization file is back in place. */
  lemma {:induction false} CycleFiles(files: Files, both: bool, h: Helper)
    requires Cycle(files, both, h).Some? && RemoveOther(files, both, h).Some?
    ensures var cycled, other := Cycle(files, both, h).value, RemoveOther(files, both, h).value;
            cycled.Keys == other.Keys && forall p | p in other && p != KUST_FILE :: cycled[p] == other[p]
  {
    var o := Other(h);
    PathsDiffer(h);
    RemoveIs(files, h);
    var removed, bare, cycled := Remove(files, h).value, First(files, both, h).value, Cycle(files, both, h).value;
    ReenableIs(bare, h);
    if both {
      RemoveIs(files, o);
      RemoveIs(removed, o);
      MoveBackAround(files, removed, bare, cycled, Remove(files, o).value,
                     Yaml(h), Orig(h), Yaml(o), Orig(o), KUST_FILE);
    } else {
      MoveBack(files, removed, cycled, Yaml(h), Orig(h), KUST_FILE);
    }
  }

  predicate KustLines(lines: seq<string>, cycled: seq<string>, other: seq<string>, both: bool, h: Helper) {
    && |cycled| == |other| == |lines|
    && (forall i | 0 <= i < |lines| :: cycled[i] == KustLine(lines[i], both, h))
    && (forall i | 0 <= i < |lines| :: other[i] == OtherEdit(lines[i], both, h))
  }

  lemma {:induction false} KustLinesSame(lines: seq<string>, cycled: seq<string>, other: seq<string>,
                                         both: bool, h: Helper)
    requires KustLines(lines, cycled, other, both, h)
    ensures cycled == other <==> forall line | line in lines :: !Commented(line, Pattern(h))
  {
    forall i | 0 <= i < |lines|
      ensures cycled[i] == other[i] <==> !Commented(lines[i], Pattern(h))
    {
      KustLineSame(lines[i], both, h);
    }
    if forall line | line in lines :: !Commented(line, Pattern(h)) {
      assert forall i | 0 <= i < |lines| :: lines[i] in lines;
    }
  }

  lemma {:induction false} KustEdits(lines: seq<string>, once: seq<string>, twice: seq<string>,
                                     cycled: seq<string>, other: seq<string>, both: bool, h: Helper)
    requires once == Edit(lines, line => Comment(line, Pattern(h)))
    requires twice == if both then Edit(once, line => Comment(line, Pattern(Other(h)))) else once
    requires cycled == Edit(twice, line => Uncomment(line, Pattern(h)))
    requires other == if both then Edit(lines, line => Comment(line, Pattern(Other(h)))) else lines
    ensures KustLines(lines, cycled, other, both, h)
  {
  }

  lemma {:induction false} CycleKustomization(files: Files, both: bool, h: Helper)
    requires Cycle(files, both, h).Some?
    ensures RemoveOther(files, both, h).Some? && KUST_FILE in files
    ensures var cycled, other := Cycle(files, both, h).value, RemoveOther(files, both, h).value;
            && KUST_FILE in cycled && KUST_FILE in other
            && KustLines(files[KUST_FILE], cycled[KUST_FILE], other[KUST_FILE], both, h)
  {
    CycleSucceeds(files, both, h);
    var removed, bare, cycled := Remove(files, h).value, First(files, both, h).value, Cycle(files, both, h).value;
    RemoveIs(files, h);
    RemoveIs(files, Other(h));
    RemoveIs(removed, Other(h));
    ReenableIs(bare, h);
    KustEdits(files[KUST_FILE], removed[KUST_FILE], bare[KUST_FILE], cycled[KUST_FILE],
              RemoveOther(files, both, h).value[KUST_FILE], both, h);
  }

  lemma {:induction false} RetargetTwice(lines: seq<string>, b1: string, b2: string)
    ensures Retarget(Retarget(lines, b1), b2) == Retarget(lines, b2)
  {
    forall i | 0 <= i < |lines|
      ensures Retarget(Retarget(lines, b1), b2)[i] == Retarget(lines, b2)[i]
    {
      SetRevisionTwice(lines[i], b1, b2);
    }
  }

  lemma {:induction false} KustomizationIsActive()
    ensures IsActive(KUST_FILE) && !IsApplication(KUST_FILE)
  {
    assert BOOTSTRAP[2..11] == "bootstrap";
    assert At(BOOTSTRAP, "bootstrap", 2);
    assert KUSTOMIZATION[|KUSTOMIZATION| - 5..] == ".yaml";
  }

  lemma {:induction false} OrigIsInactive(h: Helper)
    ensures !IsActive(Orig(h))
  {
    var file := Orig(h).file;
    assert file[|file| - 1] == 'g' && file[|file| - 5..][4] == 'g';
  }

  lemma {:induction false} SetBranchAt(files: Files, branch: string, p: Path)
    requires p in files
    ensures SetBranch(files, branch)[p] == if IsApplication(p) then Retarget(files[p], branch) else files[p]
  {
    assert p in Applications(files) <==> IsApplication(p);
  }

  /** Removing the other helper moves files by name only. */
  lemma {:induction false} RemoveOtherAt(f: Files, g: Files, both: bool, h: Helper)
    requires f.Keys == g.Keys
    ensures RemoveOther(f, both, h).Some? <==> RemoveOther(g, both, h).Some?
    ensures RemoveOther(f, both, h).Some? ==>
              var rf, rg := RemoveOther(f, both, h).value, RemoveOther(g, both, h).value;
              && rf.Keys == rg.Keys
              && forall p | p in rf && p != Orig(Other(h)) && p != KUST_FILE ::
                   p in f && p in g && rf[p] == f[p] && rg[p] == g[p]
  {
    RemoveIs(f, Other(h));
    RemoveIs(g, Other(h));
  }

  lemma {:induction false} ApartFrom(archive: Files, h: Helper)
    requires Apart(archive)
    ensures Yaml(h) !in archive && Orig(h) !in archive && KUST_FILE !in archive
  {
  }

  lemma {:induction false} MoveUnpack(files: Files, archive: Files, from: Path, to: Path)
    requires from !in archive && to !in archive
    ensures Move(files + archive, from, to).Some? <==> Move(files, from, to).Some?
    ensures Move(files, from, to).Some? ==>
              Move(files + archive, from, to).value == Move(files, from, to).value + archive
  {
  }

  lemma {:induction false} EditUnpack(files: Files, archive: Files, p: Path, f: string -> string)
    requires p !in archive
    ensures EditFile(files + archive, p, f).Some? <==> EditFile(files, p, f).Some?
    ensures EditFile(files, p, f).Some? ==>
              EditFile(files + archive, p, f).value == EditFile(files, p, f).value + archive
  {
  }

  lemma {:induction false} RemoveUnpack(files: Files, archive: Files, h: Helper)
    requires Apart(archive)
    ensures Remove(files + archive, h).Some? <==> Remove(files, h).Some?
    ensures Remove(files, h).Some? ==> Remove(files + archive, h).value == Remove(files, h).value + archive
  {
    ApartFrom(archive, h);
    MoveUnpack(files, archive, Yaml(h), Orig(h));
    if Move(files, Yaml(h), Orig(h)).Some? {
      EditUnpack(Move(files, Yaml(h), Orig(h)).value, archive, KUST_FILE, line => Comment(line, Pattern(h)));
    }
  }

  lemma {:induction false} ReenableUnpack(files: Files, archive: Files, h: Helper)
    requires Apart(archive)
    ensures Reenable(files + archive, h).Some? <==> Reenable(files, h).Some?
    ensures Reenable(files, h).Some? ==> Reenable(files + archive, h).value == Reenable(files, h).value + archive
  {
    ApartFrom(archive, h);
    MoveUnpack(files, archive, Orig(h), Yaml(h));
    if Move(files, Orig(h), Yaml(h)).Some? {
      EditUnpack(Move(files, Orig(h), Yaml(h)).value, archive, KUST_FILE, line => Uncomment(line, Pattern(h)));
    }
  }

  /** Unpacking before the helper is cycled makes no difference. */
  lemma {:induction false} CycleUnpack(files: Files, archive: Files, both: bool, h: Helper)
    requires Apart(archive)
    ensures Cycle(files + archive, both, h).Some? <==> Cycle(files, both, h).Some?
    ensures Cycle(files, both, h).Some? ==>
              Cycle(files + archive, both, h).value == Cycle(files, both, h).value + archive
  {
    RemoveUnpack(files, archive, h);
    if Remove(files, h).Some? && both {
      RemoveUnpack(Remove(files, h).value, archive, Other(h));
    }
    if First(files, both, h).Some? {
      ReenableUnpack(First(files, both, h).value, archive, h);
    }
  }

  /** Cycling the helper and setting the branch, in a tree that holds everything from the start. */
  function Rebranched(files: Files, both: bool, h: Helper, branch: string): Option<Files> {
    match Cycle(files, both, h)
    case None => None
    case Some(again) => Some(SetBranch(again, branch))
  }

  lemma {:induction false} DerivedIsRebranched(files: Files, b1: string, both: bool, h: Helper, archive: Files,
                                               b2: string)
    requires Apart(archive)
    ensures Derived(files, b1, both, h, archive, b2) == Rebranched(SetBranch(files, b1) + archive, both, h, b2)
  {
    CycleUnpack(SetBranch(files, b1), archive, both, h);
  }

  /** Trees that differ in nothing but the branch their applications name. */
  ghost predicate SameButBranch(f: Files, g: Files) {
    && f.Keys == g.Keys
    && (forall p | p in f && !IsApplication(p) :: f[p] == g[p])
    && forall p | p in f :: RetargetAlike(f[p], g[p])
  }

  ghost predicate RetargetAlike(a: seq<string>, b: seq<string>) {
    forall branch :: Retarget(a, branch) == Retarget(b, branch)
  }

  lemma {:induction false} SetBeforeUnpacking(files: Files, branch: string, archive: Files)
    ensures SameButBranch(SetBranch(files, branch) + archive, files + archive)
  {
    var f, g := SetBranch(files, branch) + archive, files + archive;
    forall p | p in f && p !in archive
      ensures !IsApplication(p) ==> f[p] == g[p]
      ensures RetargetAlike(f[p], g[p])
    {
      SetBranchAt(files, branch, p);
      forall b
        ensures Retarget(f[p], b) == Retarget(g[p], b)
      {
        RetargetTwice(files[p], branch, b);
      }
    }
  }

  lemma {:induction false} RebranchedSucceeds(f: Files, g: Files, both: bool, h: Helper, branch: string)
    requires SameButBranch(f, g)
    ensures Rebranched(f, both, h, branch).Some? <==>
            && RemoveOther(SetBranch(g, branch), both, h).Some?
            && Yaml(h) in g && Orig(h) !in g && KUST_FILE in g
  {
    CycleSucceeds(f, both, h);
    RemoveOtherAt(f, SetBranch(g, branch), both, h);
  }

  lemma {:induction false} RebranchedKeys(f: Files, g: Files, both: bool, h: Helper, branch: string)
    requires SameButBranch(f, g)
    requires Rebranched(f, both, h, branch).Some? && RemoveOther(SetBranch(g, branch), both, h).Some?
    ensures Rebranched(f, both, h, branch).value.Keys == RemoveOther(SetBranch(g, branch), both, h).value.Keys
  {
    CycleSucceeds(f, both, h);
    CycleFiles(f, both, h);
    RemoveOtherAt(f, SetBranch(g, branch), both, h);
  }

  /** Every file but the kustomization has the same lines, if it is active at all. */
  lemma {:induction false} RebranchedAt(f: Files, g: Files, both: bool, h: Helper, branch: string, p: Path)
    requires SameButBranch(f, g)
    requires Rebranched(f, both, h, branch).Some? && RemoveOther(SetBranch(g, branch), both, h).Some?
    requires p in RemoveOther(SetBranch(g, branch), both, h).value && IsActive(p) && p != KUST_FILE
    ensures p in Rebranched(f, both, h, branch).value
    ensures Rebranched(f, both, h, branch).value[p] == RemoveOther(SetBranch(g, branch), both, h).value[p]
  {
    var cycled := Cycle(f, both, h).value;
    OrigIsInactive(Other(h));
    CycleSucceeds(f, both, h);
    CycleFiles(f, both, h);
    RemoveOtherAt(f, SetBranch(g, branch), both, h);
    assert cycled[p] == f[p];
    SetBranchAt(cycled, branch, p);
    SetBranchAt(g, branch, p);
  }

  lemma {:induction false} OtherKustomization(f: Files, g: Files, both: bool, h: Helper)
    requires RemoveOther(f, both, h).Some? && RemoveOther(g, both, h).Some?
    requires KUST_FILE in f && KUST_FILE in g && f[KUST_FILE] == g[KUST_FILE]
    ensures KUST_FILE in RemoveOther(f, both, h).value && KUST_FILE in RemoveOther(g, both, h).value
    ensures RemoveOther(f, both, h).value[KUST_FILE] == RemoveOther(g, both, h).value[KUST_FILE]
  {
    RemoveIs(f, Other(h));
    RemoveIs(g, Other(h));
  }

  lemma {:induction false} RebranchedKustomization(f: Files, g: Files, both: bool, h: Helper, branch: string)
    requires SameButBranch(f, g)
    requires Rebranched(f, both, h, branch).Some? && RemoveOther(SetBranch(g, branch), both, h).Some?
    ensures KUST_FILE in g
    ensures var d, e := Rebranched(f, both, h, branch).value, RemoveOther(SetBranch(g, branch), both, h).value;
            && KUST_FILE in d && KUST_FILE in e
            && (d[KUST_FILE] == e[KUST_FILE] <==> forall line | line in g[KUST_FILE] :: !Commented(line, Pattern(h)))
  {
    var cycled := Cycle(f, both, h).value;
    CycleKustomization(f, both, h);
    KustomizationIsActive();
    SetBranchAt(g, branch, KUST_FILE);
    SetBranchAt(cycled, branch, KUST_FILE);
    KustLinesSame(f[KUST_FILE], cycled[KUST_FILE], RemoveOther(f, both, h).value[KUST_FILE], both, h);
    OtherKustomization(f, SetBranch(g, branch), both, h);
  }

  lemma {:induction false} RebranchedAgrees(f: Files, g: Files, both: bool, h: Helper, branch: string)
    requires SameButBranch(f, g) && Rebranched(f, both, h, branch).Some?
    ensures RemoveOther(SetBranch(g, branch), both, h).Some? && KUST_FILE in g
    ensures Active(Rebranched(f, both, h, branch).value) ==
            Active(RemoveOther(SetBranch(g, branch), both, h).value) <==>
            forall line | line in g[KUST_FILE] :: !Commented(line, Pattern(h))
  {
    RebranchedSucceeds(f, g, both, h, branch);
    RebranchedKeys(f, g, both, h, branch);
    RebranchedKustomization(f, g, both, h, branch);
    KustomizationIsActive();
    var d, e := Rebranched(f, both, h, branch).value, RemoveOther(SetBranch(g, branch), both, h).value;
    forall p | p in e && IsActive(p) && p != KUST_FILE
      ensures p in d && d[p] == e[p]
    {
      RebranchedAt(f, g, both, h, branch, p);
    }
    ActiveSame(d, e, KUST_FILE);
  }

  lemma {:induction false} RemoveKeys(files: Files, h: Helper)
    requires Remove(files, h).Some?
    ensures Yaml(h) in files && Orig(h) !in files
    ensures Remove(files, h).value.Keys == files.Keys - {Yaml(h)} + {Orig(h)}
  {
    RemoveIs(files, h);
  }

  lemma {:induction false} ReenableKeys(files: Files, h: Helper)
    requires Reenable(files, h).Some?
    ensures Orig(h) in files && Yaml(h) !in files
    ensures Reenable(files, h).value.Keys == files.Keys - {Orig(h)} + {Yaml(h)}
  {
    ReenableIs(files, h);
  }

  lemma {:induction false} FirstKeys(files: Files, both: bool, h: Helper, other: Helper)
    requires First(files, both, h).Some? && other != h
    ensures var v := First(files, both, h).value;
            && Yaml(h) !in v && Orig(h) in v
            && (Yaml(other) in v <==> Yaml(other) in files && !both)
            && (Orig(other) in v <==> Orig(other) in files || both)
  {
    assert Other(h) == other;
    PathsDiffer(h);
    RemoveKeys(files, h);
    if both {
      RemoveKeys(Remove(files, h).value, other);
    }
  }

  /** The derived branch has the helper h and, if it is to be without the other one, that one put aside. */
  lemma {:induction false} DerivedHelpers(files: Files, b1: string, both: bool, h: Helper, archive: Files, b2: string,
                                          other: Helper)
    requires Derived(files, b1, both, h, archive, b2).Some? && Apart(archive) && other != h
    ensures var v := Derived(files, b1, both, h, archive, b2).value;
            && Yaml(h) in v && Orig(h) !in v
            && (Yaml(other) in v <==> Yaml(other) in files && !both)
            && (Orig(other) in v <==> Orig(other) in files || both)
  {
    var w := SetBranch(files, b1);
    assert Other(h) == other;
    PathsDiffer(h);
    FirstKeys(w, both, h, other);
    ReenableKeys(First(w, both, h).value, h);
    ApartFrom(archive, h);
  }

  /** A second branch can be derived exactly when it can be configured directly and h is there to be removed. */
  lemma {:induction false} DerivedSucceeds(files: Files, b1: string, both: bool, h: Helper, archive: Files, b2: string)
    requires PlainBranch(b1) && PlainBranch(b2) && Apart(archive)
    ensures Derived(files, b1, both, h, archive, b2).Some? <==>
            && Direct(files, both, h, archive, b2).Some?
            && Yaml(h) in files && Orig(h) !in files && KUST_FILE in files
  {
    DerivedIsRebranched(files, b1, both, h, archive, b2);
    SetBeforeUnpacking(files, b1, archive);
    ApartFrom(archive, h);
    RebranchedSucceeds(SetBranch(files, b1) + archive, files + archive, both, h, b2);
  }

  /** The derived branch deploys what the directly configured one does exactly when no line for the helper
      was commented out to begin with. */
  lemma {:induction false} DerivedAgreesWithDirect(files: Files, b1: string, both: bool, h: Helper, archive: Files,
                                                   b2: string)
    requires PlainBranch(b1) && PlainBranch(b2) && Apart(archive)
    requires Derived(files, b1, both, h, archive, b2).Some?
    ensures Direct(files, both, h, archive, b2).Some? && KUST_FILE in files
    ensures Active(Derived(files, b1, both, h, archive, b2).value) ==
            Active(Direct(files, both, h, archive, b2).value) <==>
            forall line | line in files[KUST_FILE] :: !Commented(line, Pattern(h))
  {
    DerivedIsRebranched(files, b1, both, h, archive, b2);
    SetBeforeUnpacking(files, b1, archive);
    ApartFrom(archive, h);
    RebranchedAgrees(SetBranch(files, b1) + archive, files + archive, both, h, b2);
  }

  lemma {:induction false} ActiveSame(d: Files, e: Files, k: Path)
    requires d.Keys == e.Keys && k in d && IsActive(k)
    requires forall p | p in e && IsActive(p) && p != k :: p in d && d[p] == e[p]
    ensures Active(d) == Active(e) <==> d[k] == e[k]
  {
    assert Active(d)[k] == d[k] && Active(e)[k] == e[k];
    assert Active(d).Keys == Active(e).Keys;
  }

  // ---------------------------------------------------------------- the tester's check

  predicate IsTrunk(branch: string) {
    branch == "main" || branch == "master"
  }

  function Want(branch: string): string {
    if IsTrunk(branch) then "HEAD" else branch
  }

  predicate Matching(lines: seq<string>, want: string) {
    forall line | line in lines :: HasRevision(line) ==> MatchesEnd(line, " " + want)
  }

  predicate VerifyBootstraps(files: Files, branch: string) {
    forall p | p in files :: IsActive(p) ==> Matching(files[p], Want(branch))
  }

  /** The kustomization files, which set_branch_in_bootstraps leaves alone. */
  predicate KustomizationsMatch(files: Files, branch: string) {
    forall p | p in files :: IsActive(p) && !IsApplication(p) ==> Matching(files[p], Want(branch))
  }

  predicate Unversioned(lines: seq<string>) {
    forall line | line in lines :: !HasRevision(line)
  }

  lemma {:induction false} RevisionMatches(line: string, branch: string)
    requires HasRevision(line)
    ensures HasRevision(SetRevision(line, branch))
    ensures MatchesEnd(SetRevision(line, branch), " " + Want(branch)) <==> !IsTrunk(branch)
  {
    SetRevisionTwice(line, branch, branch);
    var head := line[..Indent(line)] + "targetRevision:";
    var retargeted := SetRevision(line, branch);
    assert retargeted == head + (" " + branch);
    if IsTrunk(branch) {
      assert retargeted[|retargeted| - 5..][1] != 'H';
    } else {
      assert retargeted[|retargeted| - |branch| - 1..] == " " + branch;
    }
  }

  lemma {:induction false} RetargetMatches(lines: seq<string>, branch: string)
    ensures Matching(Retarget(lines, branch), Want(branch)) <==> (IsTrunk(branch) ==> Unversioned(lines))
  {
    var edited := Retarget(lines, branch);
    forall i | 0 <= i < |lines|
      ensures HasRevision(edited[i]) <==> HasRevision(lines[i])
      ensures HasRevision(lines[i]) ==> (MatchesEnd(edited[i], " " + Want(branch)) <==> !IsTrunk(branch))
    {
      SetRevisionTwice(lines[i], branch, branch);
      if HasRevision(lines[i]) {
        RevisionMatches(lines[i], branch);
      }
    }
    if !Unversioned(lines) {
      var i :| 0 <= i < |lines| && HasRevision(lines[i]);
      assert edited[i] in edited;
    }
  }

  predicate UnversionedApplications(files: Files) {
    forall p | p in files :: IsApplication(p) ==> Unversioned(files[p])
  }

  lemma {:induction false} LastBlank(a: string, x: string, b: string, y: string)
    requires a + " " + x == b + " " + y && ' ' !in y
    ensures |a| <= |b|
  {
    var line := b + " " + y;
    assert (a + " " + x)[|a|] == ' ';
    assert forall i | |b| < i < |line| :: line[i] == y[i - |b| - 1] && line[i] in y;
  }

  lemma {:induction false} SameAfterBlank(a: string, x: string, b: string, y: string)
    requires a + " " + x == b + " " + y && ' ' !in x && ' ' !in y
    ensures x == y
  {
    LastBlank(a, x, b, y);
    LastBlank(b, y, a, x);
    assert (a + " " + x)[|a| + 1..] == x;
    assert (b + " " + y)[|b| + 1..] == y;
  }

  lemma {:induction false} EndsInValue(front: string, value: string, want: string)
    requires ' ' !in value && ' ' !in want && '.' !in want
    ensures MatchesEnd(front + " " + value, " " + want) <==> value == want
  {
    var line, pattern := front + " " + value, " " + want;
    if value == want {
      assert line[|line| - |pattern|..] == pattern;
    }
    if MatchesEnd(line, pattern) {
      var before, tail := line[..|line| - |pattern|], line[|line| - |pattern|..];
      assert forall i | 0 <= i < |pattern| :: pattern[i] != '.' && tail[i] == pattern[i];
      assert line == before + tail == before + " " + want;
      SameAfterBlank(front, value, before, want);
    }
  }

  /** The check accepts a revision line exactly if its value is the branch, or HEAD for the trunk. */
  lemma {:induction false} CheckWants(pad: string, value: string, branch: string)
    requires Blanks(pad) && ' ' !in value && ' ' !in branch && '.' !in branch
    ensures Matching([pad + "targetRevision: " + value], Want(branch)) <==>
            value == if branch == "main" || branch == "master" then "HEAD" else branch
  {
    var line := pad + "targetRevision: " + value;
    SetRevisionOf(pad, value, branch);
    assert line in [line];
    assert line == (pad + "targetRevision:") + " " + value;
    EndsInValue(pad + "targetRevision:", value, Want(branch));
  }

  /** The check accepts what set_branch_in_bootstraps leaves behind, up to the kustomization files; for a trunk
      branch it asks for HEAD, so there it only accepts applications that name no revision. */
  lemma {:induction false} SetBranchPassesCheck(files: Files, branch: string)
    requires PlainBranch(branch)
    ensures VerifyBootstraps(SetBranch(files, branch), branch) <==>
            KustomizationsMatch(files, branch) &&
            (branch == "main" || branch == "master" ==> UnversionedApplications(files))
  {
    var after := SetBranch(files, branch);
    forall p | p in files
      ensures IsApplication(p) ==> (Matching(after[p], Want(branch)) <==> (IsTrunk(branch) ==> Unversioned(files[p])))
      ensures !IsApplication(p) ==> after[p] == files[p]
    {
      SetBranchAt(files, branch, p);
      RetargetMatches(files[p], branch);
    }
  }

  /** Commenting a helper in or out concerns no line with a revision. */
  lemma {:induction false} HelperLines(line: string, h: Helper)
    ensures Comment(line, Pattern(h)) != line ==> !HasRevision(line) && !HasRevision(Comment(line, Pattern(h)))
    ensures Uncomment(line, Pattern(h)) != line ==> !HasRevision(line) && !HasRevision(Uncomment(line, Pattern(h)))
  {
    assert Pattern(h)[0] == '-';
    assert REVISION[0] == 't';
  }

  lemma {:induction false} EditKeepsMatching(lines: seq<string>, edited: seq<string>, want: string)
    requires |edited| == |lines|
    requires forall i | 0 <= i < |lines| :: edited[i] == lines[i] || (!HasRevision(edited[i]) && !HasRevision(lines[i]))
    ensures Matching(edited, want) <==> Matching(lines, want)
  {
    assert forall i | 0 <= i < |lines| :: edited[i] in edited && lines[i] in lines;
  }

  lemma {:induction false} ShiftKeepsKustomizations(was: Files, now: Files, from: Path, to: Path, branch: string)
    requires Shifted(was, now, from, to, KUST_FILE)
    requires from.file != KUSTOMIZATION && to.file != KUSTOMIZATION
    requires Matching(now[KUST_FILE], Want(branch)) <==> Matching(was[KUST_FILE], Want(branch))
    ensures KustomizationsMatch(now, branch) <==> KustomizationsMatch(was, branch)
  {
    if KustomizationsMatch(now, branch) {
      forall p | p in was && IsActive(p) && !IsApplication(p)
        ensures Matching(was[p], Want(branch))
      {
        assert p in now;
      }
    }
  }

  lemma {:induction false} RemoveKeepsKustomizations(files: Files, h: Helper, branch: string)
    requires Remove(files, h).Some?
    ensures KustomizationsMatch(Remove(files, h).value, branch) <==> KustomizationsMatch(files, branch)
  {
    PathsDiffer(h);
    RemoveIs(files, h);
    var lines, edited := files[KUST_FILE], Remove(files, h).value[KUST_FILE];
    forall i | 0 <= i < |lines|
      ensures edited[i] == lines[i] || (!HasRevision(edited[i]) && !HasRevision(lines[i]))
    {
      HelperLines(lines[i], h);
    }
    EditKeepsMatching(lines, edited, Want(branch));
    ShiftKeepsKustomizations(files, Remove(files, h).value, Yaml(h), Orig(h), branch);
  }

  lemma {:induction false} ReenableKeepsKustomizations(files: Files, h: Helper, branch: string)
    requires Reenable(files, h).Some?
    ensures KustomizationsMatch(Reenable(files, h).value, branch) <==> KustomizationsMatch(files, branch)
  {
    PathsDiffer(h);
    ReenableIs(files, h);
    var lines, edited := files[KUST_FILE], Reenable(files, h).value[KUST_FILE];
    forall i | 0 <= i < |lines|
      ensures edited[i] == lines[i] || (!HasRevision(edited[i]) && !HasRevision(lines[i]))
    {
      HelperLines(lines[i], h);
    }
    EditKeepsMatching(lines, edited, Want(branch));
    ShiftKeepsKustomizations(files, Reenable(files, h).value, Orig(h), Yaml(h), branch);
  }

  lemma {:induction false} SetBranchKeepsKustomizations(files: Files, b: string, branch: string)
    ensures KustomizationsMatch(SetBranch(files, b), branch) <==> KustomizationsMatch(files, branch)
  {
    forall p | p in files
      ensures !IsApplication(p) ==> SetBranch(files, b)[p] == files[p]
    {
      SetBranchAt(files, b, p);
    }
  }

  lemma {:induction false} FirstKeepsKustomizations(files: Files, both: bool, h: Helper, branch: string)
    requires First(files, both, h).Some?
    ensures KustomizationsMatch(First(files, both, h).value, branch) <==> KustomizationsMatch(files, branch)
  {
    RemoveKeepsKustomizations(files, h, branch);
    if both {
      RemoveKeepsKustomizations(Remove(files, h).value, Other(h), branch);
    }
  }

  lemma {:induction false} SameKustomizations(f: Files, g: Files, branch: string)
    requires SameButBranch(f, g)
    ensures KustomizationsMatch(f, branch) <==> KustomizationsMatch(g, branch)
  {
  }

  /** The derived branch passes the check exactly when the kustomization files, those of the archive
      included, do from the start. */
  lemma {:induction false} DerivedPassesCheck(files: Files, b1: string, both: bool, h: Helper, archive: Files,
                                              b2: string)
    requires PlainBranch(b1) && PlainBranch(b2) && Apart(archive) && !IsTrunk(b2)
    requires Derived(files, b1, both, h, archive, b2).Some?
    ensures VerifyBootstraps(Derived(files, b1, both, h, archive, b2).value, b2) <==>
            KustomizationsMatch(files + archive, b2)
  {
    var f := SetBranch(files, b1) + archive;
    DerivedIsRebranched(files, b1, both, h, archive, b2);
    SetBeforeUnpacking(files, b1, archive);
    SameKustomizations(f, files + archive, b2);
    FirstKeepsKustomizations(f, both, h, b2);
    ReenableKeepsKustomizations(First(f, both, h).value, h, b2);
    SetBranchPassesCheck(Cycle(f, both, h).value, b2);
  }

  lemma {:induction false} RemoveKeepsCheck(files: Files, h: Helper, branch: string)
    requires Remove(files, h).Some? && VerifyBootstraps(files, branch)
    ensures VerifyBootstraps(Remove(files, h).value, branch)
  {
    var after := Remove(files, h).value;
    RemoveKeepsKustomizations(files, h, branch);
    RemoveIs(files, h);
    OrigIsInactive(h);
    KustomizationIsActive();
    forall p | p in after && IsActive(p)
      ensures Matching(after[p], Want(branch))
    {
      if IsApplication(p) {
        assert after[p] == files[p];
      }
    }
  }

  /** And so does the first branch. */
  lemma {:induction false} FirstPassesCheck(files: Files, both: bool, h: Helper, branch: string)
    requires PlainBranch(branch) && !IsTrunk(branch) && First(SetBranch(files, branch), both, h).Some?
    ensures VerifyBootstraps(First(SetBranch(files, branch), both, h).value, branch) <==>
            KustomizationsMatch(files, branch)
  {
    var f := SetBranch(files, branch);
    SetBranchPassesCheck(files, branch);
    if KustomizationsMatch(files, branch) {
      RemoveKeepsCheck(f, h, branch);
      if both {
        RemoveKeepsCheck(Remove(f, h).value, Other(h), branch);
      }
    }
    FirstKeepsKustomizations(f, both, h, branch);
    SetBranchKeepsKustomizations(files, branch, branch);
  }
}
