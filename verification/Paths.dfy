/**
 * Paths that cross from Go into shell: escaping of index-mount paths, insertion of the index-mount
 * component, and the split of a copy-in path into mount root and file.
 */
module Paths {
  import opened Text

  // ---------------------------------------------------------------- escaping

  const INDEX_MOUNT := "*/"

  function EscapeStars(s: string): string {
    if s == "" then "" else (if s[0] == '*' then "\\*" else [s[0]]) + EscapeStars(s[1..])
  }

  /** What VerifyCopyOut passes on: the path, escaped if it has index mounts, and the number of
      computes, or 0.  The escaped path also replaces the path of the global Lustre option. */
  lemma {:induction false} EscapeNothing(a: string)
    requires '*' !in a
    ensures EscapeStars(a) == a
    decreases |a|
  {
    if a != "" {
      assert a[0] in a && forall c | c in a[1..] :: c in a;
      EscapeNothing(a[1..]);
    }
  }

  lemma {:induction false} EscapeConcat(a: string, b: string)
    ensures EscapeStars(a + b) == EscapeStars(a) + EscapeStars(b)
    decreases |a|
  {
    if a == "" {
      assert a + b == b;
    } else {
      assert (a + b)[1..] == a[1..] + b;
      EscapeConcat(a[1..], b);
    }
  }

  /** A backslash goes right before every star, and nothing else changes. */
  lemma {:induction false} EscapeAt(a: string, b: string)
    requires '*' !in a
    ensures EscapeStars(a + ("*" + b)) == a + (['\\', '*'] + EscapeStars(b))
  {
    EscapeConcat(a, "*" + b);
    EscapeNothing(a);
    assert ("*" + b)[1..] == b;
  }

  function CopyOutArgs(out: string, computes: nat): (string, nat) {
    if Contains(out, INDEX_MOUNT) then (EscapeStars(out), computes) else (out, 0)
  }

  /** The arguments of the last of several calls, each rewriting the path in place. */
  function CopyOutCalls(out: string, counts: seq<nat>): (string, nat) {
    if counts == [] then (out, 0)
    else CopyOutArgs(CopyOutCalls(out, counts[..|counts| - 1]).0, counts[|counts| - 1])
  }

  /** The script strips quotes and backslashes, when it has computes to check. */
  function Stripped(s: string): string {
    if s == "" then "" else (if s[0] == '\'' || s[0] == '\\' then "" else [s[0]]) + Stripped(s[1..])
  }

  /** Quotes and backslashes go, and nothing else. */
  lemma {:induction false} StrippedConcat(a: string, b: string)
    ensures Stripped(a + b) == Stripped(a) + Stripped(b)
    ensures Stripped("'") == "" && Stripped(['\\']) == ""
    decreases |a|
  {
    if a == "" {
      assert a + b == b;
    } else {
      assert (a + b)[1..] == a[1..] + b;
      StrippedConcat(a[1..], b);
    }
    assert "'"[1..] == "" && ['\\'][1..] == [];
  }

  function ScriptPath(out: string, numComputes: nat): string {
    if numComputes > 0 then Stripped(out) else out
  }

  function StarSlash(s: string): bool {
    |s| >= 2 && ((s[0] == '*' && s[1] == '/') || StarSlash(s[1..]))
  }

  lemma {:induction false} MountAtStart(s: string)
    requires |s| >= 2
    ensures At(s, INDEX_MOUNT, 0) <==> s[0] == '*' && s[1] == '/'
  {
    assert s[0..2] == [s[0], s[1]];
  }

  lemma {:induction false} MountLater(s: string)
    requires |s| >= 2
    ensures Contains(s, INDEX_MOUNT) <==> At(s, INDEX_MOUNT, 0) || Contains(s[1..], INDEX_MOUNT)
  {
    var t := s[1..];
    if Contains(s, INDEX_MOUNT) && !At(s, INDEX_MOUNT, 0) {
      var i := Index(s, INDEX_MOUNT);
      assert t[i - 1..i + 1] == s[i..i + 2];
      assert At(t, INDEX_MOUNT, i - 1);
    }
    if Contains(t, INDEX_MOUNT) {
      var i := Index(t, INDEX_MOUNT);
      assert At(t, INDEX_MOUNT, i);
      assert s[i + 1..i + 3] == t[i..i + 2];
      assert At(s, INDEX_MOUNT, i + 1);
    }
  }

  lemma {:induction false} ContainsStarSlash(s: string)
    ensures Contains(s, INDEX_MOUNT) <==> StarSlash(s)
    decreases |s|
  {
    if |s| >= 2 {
      ContainsStarSlash(s[1..]);
      MountAtStart(s);
      MountLater(s);
    }
  }

  lemma {:induction false} StarSlashCons(c: char, t: string)
    ensures StarSlash([c] + t) <==> (c == '*' && t != "" && t[0] == '/') || StarSlash(t)
  {
    assert ([c] + t)[1..] == t;
  }

  lemma {:induction false} EscapeCons(c: char, t: string)
    ensures EscapeStars([c] + t) ==
            if c == '*' then ['\\'] + ([c] + EscapeStars(t)) else [c] + EscapeStars(t)
  {
    assert ([c] + t)[1..] == t;
    assert "\\*" == ['\\'] + ['*'];
  }

  predicate SameMounts(s: string, t: string) {
    && (StarSlash(s) <==> StarSlash(t))
    && (s == "" <==> t == "") && (s != "" ==> (s[0] == '/' <==> t[0] == '/'))
  }

  lemma {:induction false} EscapeConsMounts(c: char, t: string, e: string)
    requires SameMounts(e, t)
    ensures SameMounts(if c == '*' then ['\\'] + ([c] + e) else [c] + e, [c] + t)
  {
    StarSlashCons(c, t);
    StarSlashCons(c, e);
    if c == '*' {
      StarSlashCons('\\', [c] + e);
    }
  }

  lemma {:induction false} EscapeKeepsMounts(s: string)
    ensures SameMounts(EscapeStars(s), s)
    decreases |s|
  {
    if s != "" {
      var c, t := s[0], s[1..];
      EscapeKeepsMounts(t);
      assert s == [c] + t;
      EscapeCons(c, t);
      EscapeConsMounts(c, t, EscapeStars(t));
    }
  }

  lemma {:induction false} StrippedCons(c: char, t: string)
    ensures Stripped([c] + t) == (if c == '\'' || c == '\\' then "" else [c]) + Stripped(t)
  {
    assert ([c] + t)[1..] == t;
  }

  lemma {:induction false} EscapeIsStripped(s: string)
    ensures Stripped(EscapeStars(s)) == Stripped(s)
    decreases |s|
  {
    if s != "" {
      var c, rest := s[0], EscapeStars(s[1..]);
      EscapeIsStripped(s[1..]);
      StrippedCons(c, rest);
      if c == '*' {
        StrippedCons('\\', [c] + rest);
        assert EscapeStars(s) == ['\\'] + ([c] + rest);
      }
    }
  }

  predicate Unquoted(s: string) {
    '\'' !in s && '\\' !in s
  }

  lemma {:induction false} StrippedExactly(s: string)
    ensures |Stripped(s)| <= |s|
    ensures Stripped(s) == s <==> Unquoted(s)
    decreases |s|
  {
    if s != "" {
      StrippedExactly(s[1..]);
      assert s == [s[0]] + s[1..];
      assert ([s[0]] + Stripped(s[1..]))[1..] == Stripped(s[1..]);
    }
  }

  lemma {:induction false} EscapeGrows(s: string)
    ensures |EscapeStars(s)| >= |s| && (StarSlash(s) ==> |EscapeStars(s)| > |s|)
    decreases |s|
  {
    if s != "" {
      EscapeGrows(s[1..]);
    }
  }

  lemma {:induction false} ArgsKeep(before: string, computes: nat)
    ensures var (o, n) := CopyOutArgs(before, computes);
            && (Contains(o, INDEX_MOUNT) <==> Contains(before, INDEX_MOUNT))
            && Stripped(o) == Stripped(before)
            && n == (if Contains(before, INDEX_MOUNT) then computes else 0)
            && |o| >= |before| && (Contains(before, INDEX_MOUNT) ==> |o| > |before|)
            && (!Contains(before, INDEX_MOUNT) ==> o == before)
  {
    ContainsStarSlash(before);
    ContainsStarSlash(EscapeStars(before));
    EscapeKeepsMounts(before);
    EscapeIsStripped(before);
    EscapeGrows(before);
  }

  lemma {:induction false} CallsKeep(out: string, counts: seq<nat>)
    ensures var (o, n) := CopyOutCalls(out, counts);
            && (Contains(o, INDEX_MOUNT) <==> Contains(out, INDEX_MOUNT))
            && Stripped(o) == Stripped(out)
            && n == (if counts != [] && Contains(out, INDEX_MOUNT) then counts[|counts| - 1] else 0)
            && |o| >= |out| && (counts != [] && Contains(out, INDEX_MOUNT) ==> |o| > |out|)
            && (!Contains(out, INDEX_MOUNT) ==> o == out)
    decreases |counts|
  {
    if counts != [] {
      CallsKeep(out, counts[..|counts| - 1]);
      ArgsKeep(CopyOutCalls(out, counts[..|counts| - 1]).0, counts[|counts| - 1]);
    }
  }

  /** However often VerifyCopyOut has been called: the script takes its unescaping branch exactly when
      the path has index mounts and there are computes, and recovers the path exactly when it has no
      index mounts, or there are computes and it has no quotes or backslashes of its own. */
  lemma {:induction false} ScriptRecoversPath(out: string, counts: seq<nat>)
    requires counts != []
    ensures var (o, n) := CopyOutCalls(out, counts);
            var computes := counts[|counts| - 1];
            && (n > 0 <==> Contains(out, INDEX_MOUNT) && computes > 0)
            && (ScriptPath(o, n) == out <==> !Contains(out, INDEX_MOUNT) || (computes > 0 && Unquoted(out)))
  {
    CallsKeep(out, counts);
    StrippedExactly(out);
  }

  // ---------------------------------------------------------------- the index-mount component

  /** The lexical processing of filepath.Clean on the components of a path. */
  function Fold(parts: seq<string>, acc: seq<string>, rooted: bool): seq<string> {
    if parts == [] then acc
    else Fold(parts[1..], CleanStep(parts[0], acc, rooted), rooted)
  }

  function CleanStep(part: string, acc: seq<string>, rooted: bool): seq<string> {
    if part == "" || part == "." then acc
    else if part == ".." && acc != [] && acc[|acc| - 1] != ".." then acc[..|acc| - 1]
    else if part == ".." && rooted then acc
    else acc + [part]
  }

  predicate Rooted(path: string) {
    path != "" && path[0] == '/'
  }

  function Clean(path: string): string {
    var parts := Fold(Split(path, '/'), [], Rooted(path));
    if Rooted(path) then "/" + Join(parts, '/')
    else if parts == [] then "."
    else Join(parts, '/')
  }

  /** The position after the last slash. */
  function AfterSlash(path: string): (i: nat)
    ensures i <= |path|
    ensures i > 0 ==> path[i - 1] == '/'
    ensures '/' !in path[i..]
  {
    if path == "" then 0
    else if path[|path| - 1] == '/' then |path|
    else
      assert path[AfterSlash(path[..|path| - 1])..] ==
             path[..|path| - 1][AfterSlash(path[..|path| - 1])..] + [path[|path| - 1]];
      AfterSlash(path[..|path| - 1])
  }

  function Dir(path: string): string {
    Clean(path[..AfterSlash(path)])
  }

  function TrimSlashes(path: string): string {
    if path != "" && path[|path| - 1] == '/' then TrimSlashes(path[..|path| - 1]) else path
  }

  function Base(path: string): string {
    var trimmed := TrimSlashes(path);
    if path == "" then "." else if trimmed == "" then "/" else trimmed[AfterSlash(trimmed)..]
  }

  /** The last component does not depend on a slash behind it. */
  lemma {:induction false} BaseIgnoresSlash(path: string)
    requires path != ""
    ensures Base(path + "/") == Base(path)
  {
    assert (path + "/")[..|path|] == path;
  }

  /** filepath.Join(filepath.Dir(path), "*", filepath.Base(path)). */
  function InsertMount(path: string): string {
    Clean(Dir(path) + "/" + "*" + "/" + Base(path))
  }

  predicate Normal(part: string) {
    part != "" && part != "." && part != ".." && '/' !in part
  }

  predicate NormalPath(parts: seq<string>) {
    forall p | p in parts :: Normal(p)
  }

  lemma {:induction false} FoldStaysNormal(parts: seq<string>, acc: seq<string>)
    requires NormalPath(acc) && forall p | p in parts :: '/' !in p
    ensures NormalPath(Fold(parts, acc, true))
    decreases |parts|
  {
    if parts != [] {
      assert parts[0] in parts;
      FoldStaysNormal(parts[1..], CleanStep(parts[0], acc, true));
    }
  }

  lemma {:induction false} FoldNormal(parts: seq<string>, acc: seq<string>, rooted: bool)
    requires NormalPath(parts)
    ensures Fold(parts, acc, rooted) == acc + parts
    decreases |parts|
  {
    if parts != [] {
      assert parts[0] in parts;
      FoldNormal(parts[1..], acc + [parts[0]], rooted);
    }
  }

  lemma {:induction false} FoldConcat(a: seq<string>, b: seq<string>, acc: seq<string>, rooted: bool)
    ensures Fold(a + b, acc, rooted) == Fold(b, Fold(a, acc, rooted), rooted)
    decreases |a|
  {
    if a == [] {
      assert a + b == b;
    } else {
      assert (a + b)[1..] == a[1..] + b;
      FoldConcat(a[1..], b, CleanStep(a[0], acc, rooted), rooted);
    }
  }

  lemma {:induction false} SplitMiddle(a: string, x: string, b: string)
    requires '/' !in x
    ensures Split(a + "/" + x + "/" + b, '/') == Split(a, '/') + [x] + Split(b, '/')
  {
    SplitConcat(a + "/" + x, b, '/');
    SplitConcat(a, x, '/');
    SplitNone(x, '/');
  }

  lemma {:induction false} CleanMiddle(path: string, x: string, rest: string)
    requires Rooted(path) && '/' !in x
    ensures Clean(path + "/" + x + "/" + rest) ==
            "/" + Join(Fold(Split(rest, '/'), CleanStep(x, Fold(Split(path, '/'), [], true), true), true), '/')
  {
    var a, b := Split(path, '/'), Split(rest, '/');
    SplitMiddle(path, x, rest);
    FoldConcat(a + [x], b, [], true);
    FoldConcat(a, [x], [], true);
    assert [x][1..] == [];
  }

  /** A component and the dots that follow it cancel. */
  lemma {:induction false} CleanDotDot(path: string, x: string, rest: string)
    requires Rooted(path) && Normal(x)
    ensures Clean(path + "/" + x + "/" + ".." + "/" + rest) == Clean(path + "/" + rest)
  {
    var a, b := Split(path, '/'), Split(rest, '/');
    var acc := Fold(a, [], true);
    CleanMiddle(path + "/" + x, "..", rest);
    SplitConcat(path, x, '/');
    SplitNone(x, '/');
    FoldConcat(a, [x], [], true);
    assert [x][1..] == [];
    assert (acc + [x])[..|acc|] == acc;
    CleanPlain(path, rest);
  }

  lemma {:induction false} CleanPlain(path: string, rest: string)
    requires Rooted(path)
    ensures Clean(path + "/" + rest) == "/" + Join(Fold(Split(rest, '/'), Fold(Split(path, '/'), [], true), true), '/')
  {
    SplitConcat(path, rest, '/');
    FoldConcat(Split(path, '/'), Split(rest, '/'), [], true);
  }

  /** Single dots and empty components go. */
  lemma {:induction false} CleanDot(path: string, x: string, rest: string)
    requires Rooted(path) && (x == "." || x == "")
    ensures Clean(path + "/" + x + "/" + rest) == Clean(path + "/" + rest)
  {
    CleanMiddle(path, x, rest);
    CleanPlain(path, rest);
  }

  /** There is nothing above the root. */
  lemma {:induction false} CleanRoot(rest: string)
    ensures Clean("/" + ".." + "/" + rest) == Clean("/" + rest)
  {
    var b := Split(rest, '/');
    SplitMiddle("", "..", rest);
    SplitConcat("", rest, '/');
    assert "" + "/" + ".." + "/" + rest == "/" + ".." + "/" + rest && "" + "/" + rest == "/" + rest;
    FoldConcat([""] + [".."], b, [], true);
    FoldConcat([""], [".."], [], true);
    FoldConcat([""], b, [], true);
    FoldOne("", [], true);
    FoldOne("..", [], true);
  }

  lemma {:induction false} FoldOne(part: string, acc: seq<string>, rooted: bool)
    ensures Fold([part], acc, rooted) == CleanStep(part, acc, rooted)
  {
    assert [part][1..] == [];
  }

  lemma {:induction false} CleanTwo(a: string, x: string)
    requires a != "" && '/' !in a && '/' !in x
    ensures var parts := CleanStep(x, CleanStep(a, [], false), false);
            Clean(a + "/" + x) == if parts == [] then "." else Join(parts, '/')
  {
    SplitConcat(a, x, '/');
    SplitNone(a, '/');
    SplitNone(x, '/');
    FoldConcat([a], [x], [], false);
    FoldOne(a, [], false);
    FoldOne(x, CleanStep(a, [], false), false);
    assert (a + "/" + x)[0] == a[0] && a[0] in a;
  }

  /** In a path that does not start at the root, leading dots stay if they are two. */
  lemma {:induction false} CleanRelative(x: string)
    requires Normal(x)
    ensures Clean("." + "/" + x) == x && Clean(".." + "/" + x) == ".." + "/" + x
    ensures Clean("") == "."
  {
    CleanTwo(".", x);
    CleanTwo("..", x);
    assert [".."] + [x] == ["..", x] && ["..", x][1..] == [x];
    assert Join(["..", x], '/') == ".." + "/" + x;
    SplitNone("", '/');
    FoldOne("", [], false);
  }

  /** Cleaning a rooted path that is followed by normal components. */
  lemma {:induction false} CleanAppend(path: string, more: seq<string>)
    requires Rooted(path) && more != [] && NormalPath(more)
    ensures Clean(path + "/" + Join(more, '/')) == "/" + Join(Fold(Split(path, '/'), [], true) + more, '/')
  {
    assert forall p | p in more :: '/' !in p;
    SplitConcat(path, Join(more, '/'), '/');
    SplitJoin(more, '/');
    FoldConcat(Split(path, '/'), more, [], true);
    FoldNormal(more, Fold(Split(path, '/'), [], true), true);
  }

  /** An absolute path of a file, as filepath.Clean leaves it, without wildcards. */
  predicate CleanFile(path: string) {
    Rooted(path) && path != "/" && Clean(path) == path && '*' !in path
  }

  function Components(path: string): seq<string> {
    Fold(Split(path, '/'), [], true)
  }

  lemma {:induction false} CleanFileParts(path: string)
    requires CleanFile(path)
    ensures var parts := Components(path);
            parts != [] && NormalPath(parts) && path == "/" + Join(parts, '/')
  {
    FoldStaysNormal(Split(path, '/'), []);
  }

  lemma {:induction false} AfterSlashAt(a: string, b: string)
    requires '/' !in b
    ensures AfterSlash(a + "/" + b) == |a| + 1
    decreases |b|
  {
    var path := a + "/" + b;
    if b != "" {
      assert path[|path| - 1] == b[|b| - 1];
      assert path[..|path| - 1] == a + "/" + b[..|b| - 1];
      AfterSlashAt(a, b[..|b| - 1]);
    }
  }

  lemma {:induction false} NoTrailingSlash(before: string, file: string)
    requires file != "" && '/' !in file
    ensures TrimSlashes(before + "/" + file) == before + "/" + file
  {
    var path := before + "/" + file;
    assert path[|path| - 1] == file[|file| - 1];
    assert file[|file| - 1] in file;
  }

  lemma {:induction false} BaseOf(before: string, file: string)
    requires file != "" && '/' !in file
    ensures var path := before + "/" + file; Base(path) == file && path[..AfterSlash(path)] == before + "/"
  {
    AfterSlashAt(before, file);
    NoTrailingSlash(before, file);
  }

  /** Directory and file of a path given by its components. */
  lemma {:induction false} DirAndBase(dir: seq<string>, file: string)
    requires NormalPath(dir) && Normal(file)
    ensures var path := "/" + Join(dir + [file], '/');
            Dir(path) == "/" + Join(dir, '/') && Base(path) == file
  {
    var before := if dir == [] then "" else "/" + Join(dir, '/');
    PathAppend(dir, [file], before);
    BaseOf(before, file);
    DirOfSlash(dir, before);
  }

  lemma {:induction false} DirOfSlash(dir: seq<string>, before: string)
    requires NormalPath(dir)
    requires before == if dir == [] then "" else "/" + Join(dir, '/')
    ensures Clean(before + "/") == "/" + Join(dir, '/')
  {
    var s := before + "/";
    assert s == before + ['/'] + "";
    SplitConcat(before, "", '/');
    assert Split("", '/') == [""];
    if dir != [] {
      assert forall p | p in dir :: '/' !in p;
      assert before == "" + ['/'] + Join(dir, '/');
      SplitConcat("", Join(dir, '/'), '/');
      SplitJoin(dir, '/');
    }
    FoldConcat(Split(before, '/'), [""], [], true);
    FoldRooted(dir, before);
  }

  lemma {:induction false} FoldRooted(dir: seq<string>, before: string)
    requires NormalPath(dir)
    requires Split(before, '/') == if dir == [] then [""] else [""] + dir
    ensures Fold(Split(before, '/'), [], true) == dir
  {
    if dir != [] {
      FoldConcat([""], dir, [], true);
      FoldNormal(dir, [], true);
    }
  }

  lemma {:induction false} ComponentsOfJoin(dir: seq<string>)
    requires NormalPath(dir)
    ensures Components("/" + Join(dir, '/')) == dir
  {
    var path := "/" + Join(dir, '/');
    assert path == "" + ['/'] + Join(dir, '/');
    SplitConcat("", Join(dir, '/'), '/');
    if dir == [] {
      assert Split(path, '/') == [""] + [""];
      FoldConcat([""], [""], [], true);
    } else {
      assert forall p | p in dir :: '/' !in p;
      SplitJoin(dir, '/');
      FoldConcat([""], dir, [], true);
      FoldNormal(dir, [], true);
    }
  }

  /** The inserted component comes right before the file. */
  lemma {:induction false} InsertMountAt(dir: seq<string>, file: string)
    requires NormalPath(dir) && Normal(file)
    ensures InsertMount("/" + Join(dir + [file], '/')) == "/" + Join(dir + ["*", file], '/')
  {
    var d := "/" + Join(dir, '/');
    DirAndBase(dir, file);
    ComponentsOfJoin(dir);
    CleanMounted(d, dir, "*", file);
  }

  lemma {:induction false} CleanMounted(d: string, dir: seq<string>, mount: string, file: string)
    requires Rooted(d) && Components(d) == dir && Normal(mount) && Normal(file)
    ensures Clean(d + "/" + mount + "/" + file) == "/" + Join(dir + [mount, file], '/')
  {
    var more := [mount, file];
    assert Join(more, '/') == mount + ['/'] + Join(more[1..], '/') == mount + "/" + file;
    assert d + "/" + mount + "/" + file == d + "/" + Join(more, '/');
    CleanAppend(d, more);
  }

  lemma {:induction false} RemoveFromBetween(a: string, b: string)
    requires '*' !in a
    ensures RemoveFirst(a + INDEX_MOUNT + b, INDEX_MOUNT) == a + b
  {
    var s := a + INDEX_MOUNT + b;
    assert s[|a|..|a| + 2] == INDEX_MOUNT;
    assert At(s, INDEX_MOUNT, |a|);
    var i := Index(s, INDEX_MOUNT);
    assert s[i] == s[i..i + 2][0] == '*';
  }

  lemma {:induction false} MountRemoved(path: string, mounted: string, before: string, file: string)
    requires path == before + "/" + file && '*' !in path
    requires mounted == before + "/" + INDEX_MOUNT + file
    ensures RemoveFirst(mounted, INDEX_MOUNT) == path && Contains(mounted, INDEX_MOUNT)
  {
    var a := before + "/";
    assert '*' !in a by {
      assert forall i | 0 <= i < |a| :: a[i] == path[i];
    }
    RemoveFromBetween(a, file);
    assert mounted[|a|..|a| + 2] == INDEX_MOUNT;
    assert At(mounted, INDEX_MOUNT, |a|);
  }

  lemma {:induction false} Mounted(path: string, dir: seq<string>, file: string)
    requires NormalPath(dir) && Normal(file) && path == "/" + Join(dir + [file], '/') && '*' !in path
    ensures RemoveFirst(InsertMount(path), INDEX_MOUNT) == path && Contains(InsertMount(path), INDEX_MOUNT)
  {
    var before := if dir == [] then "" else "/" + Join(dir, '/');
    InsertMountAt(dir, file);
    MountedPath(dir, "*", file, before);
    assert "*" + "/" == INDEX_MOUNT;
    MountRemoved(path, "/" + Join(dir + ["*", file], '/'), before, file);
  }

  lemma {:induction false} LastOf(parts: seq<string>)
    requires parts != [] && NormalPath(parts)
    ensures var n := |parts| - 1;
            NormalPath(parts[..n]) && Normal(parts[n]) && parts == parts[..n] + [parts[n]]
  {
    assert parts[|parts| - 1] in parts && forall p | p in parts[..|parts| - 1] :: p in parts;
  }

  lemma {:induction false} LastComponent(path: string) returns (dir: seq<string>, file: string)
    requires CleanFile(path)
    ensures NormalPath(dir) && Normal(file) && path == "/" + Join(dir + [file], '/')
  {
    CleanFileParts(path);
    var parts := Components(path);
    dir, file := parts[..|parts| - 1], parts[|parts| - 1];
    LastOf(parts);
  }

  /** Inserting the index-mount component and removing it again are inverse, on every clean
      absolute file path without wildcards. */
  lemma {:induction false} IndexMountRoundTrip(path: string)
    requires CleanFile(path)
    ensures RemoveFirst(InsertMount(path), INDEX_MOUNT) == path
    ensures InsertMount(RemoveFirst(InsertMount(path), INDEX_MOUNT)) == InsertMount(path)
    ensures Contains(InsertMount(path), INDEX_MOUNT)
  {
    var dir, file := LastComponent(path);
    Mounted(path, dir, file);
  }

  lemma {:induction false} PathAppend(dir: seq<string>, more: seq<string>, before: string)
    requires more != [] && before == if dir == [] then "" else "/" + Join(dir, '/')
    ensures "/" + Join(dir + more, '/') == before + "/" + Join(more, '/')
  {
    if dir == [] {
      assert dir + more == more;
    } else {
      JoinConcat(dir, more, '/');
    }
  }

  lemma {:induction false} JoinPair(a: string, b: string)
    ensures Join([a, b], '/') == a + "/" + b
  {
    assert [a, b][1..] == [b];
  }

  lemma {:induction false} MountedPath(dir: seq<string>, mount: string, file: string, before: string)
    requires before == if dir == [] then "" else "/" + Join(dir, '/')
    ensures "/" + Join(dir + [file], '/') == before + "/" + file
    ensures "/" + Join(dir + [mount, file], '/') == before + "/" + (mount + "/") + file
  {
    PathAppend(dir, [file], before);
    PathAppend(dir, [mount, file], before);
    JoinPair(mount, file);
    assert before + "/" + (mount + "/" + file) == before + "/" + (mount + "/") + file;
  }

  // ---------------------------------------------------------------- copy-in

  /** SetupCopyIn strips the mount root from the path; the script puts it back. */
  function CopyInFile(input: string, mountRoot: string): string {
    RemoveFirst(input, mountRoot + "/")
  }

  function ScriptInput(mountRoot: string, file: string): string {
    mountRoot + "/" + file
  }

  /** The script creates the file that copy-out will compare with exactly when it is under the mount root. */
  lemma {:induction false} CopyInNamesTheSameFile(input: string, mountRoot: string)
    ensures ScriptInput(mountRoot, CopyInFile(input, mountRoot)) == input <==> mountRoot + "/" <= input
  {
    var root := mountRoot + "/";
    if root <= input {
      assert At(input, root, 0);
      assert Index(input, root) == 0;
      assert input == root + input[|root|..];
    } else {
      assert root <= root + CopyInFile(input, mountRoot);
    }
  }
}
