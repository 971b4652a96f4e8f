/** Workspace containment of tool paths. A path is its components between slashes; symlink
    resolution is an arbitrary partial function on clean absolute paths. */
module Paths {
  import opened Wrappers

  type Parts = seq<string>

  datatype Path = Path(rooted: bool, parts: Parts)

  datatype Resolution = Resolved(parts: Parts) | Missing | Unreadable(why: string)

  /** What evaluating the symlinks of a clean absolute path gives. */
  type Resolver = Parts -> Resolution

  datatype PathError = PathEscape | NotExist | Other(why: string)

  /** A component that names something. */
  predicate Name(c: string) { c != "" && c != "." && c != ".." }

  predicate Names(p: Parts) { forall i :: 0 <= i < |p| ==> Name(p[i]) }

  /** A clean absolute path. */
  predicate AllNormal(p: Parts) { Names(p) && forall i :: 0 <= i < |p| ==> '/' !in p[i] }

  ghost predicate CleanResolver(resolve: Resolver) {
    forall p: Parts :: resolve(p).Resolved? ==> AllNormal(resolve(p).parts)
  }

  // ---------------------------------------------------------------------------------------
  // Lexical paths
  // ---------------------------------------------------------------------------------------

  function Split(s: string): Parts {
    if '/' !in s then [s] else
      var i := FirstSlash(s);
      [s[..i]] + Split(s[i + 1..])
  }

  function FirstSlash(s: string): (i: nat)
    requires '/' in s
    ensures i < |s| && s[i] == '/' && '/' !in s[..i]
  {
    if s[0] == '/' then 0 else
      assert s == [s[0]] + s[1..];
      1 + FirstSlash(s[1..])
  }

  /** Components in order, with a slash between each and the next. */
  function Slashed(parts: Parts): string {
    if parts == [] then "" else if |parts| == 1 then parts[0] else parts[0] + "/" + Slashed(parts[1..])
  }

  /** Splitting a text at its slashes: put together again its components are the text, and they are
      the only components without slashes that are. */
  lemma {:induction false} SplitIsExact(s: string, parts: Parts)
    requires parts != [] && forall c :: c in parts ==> '/' !in c
    ensures Slashed(Split(s)) == s
    ensures Slashed(parts) == s <==> parts == Split(s)
  {
    SplitThenSlashed(s);
    SlashedThenSplit(parts);
  }

  lemma {:induction false} SplitThenSlashed(s: string)
    ensures Split(s) != [] && Slashed(Split(s)) == s
    decreases |s|
  {
    if '/' in s {
      var i := FirstSlash(s);
      SplitThenSlashed(s[i + 1..]);
      assert s == s[..i] + "/" + s[i + 1..];
      assert Split(s)[1..] == Split(s[i + 1..]);
    }
  }

  lemma {:induction false} SlashedThenSplit(parts: Parts)
    requires parts != [] && forall c :: c in parts ==> '/' !in c
    ensures Split(Slashed(parts)) == parts
  {
    if |parts| > 1 {
      SlashedThenSplit(parts[1..]);
      SplitOnce(parts[0], Slashed(parts[1..]));
    }
  }

  lemma SplitOnce(c: string, rest: string)
    requires '/' !in c
    ensures Split(c + "/" + rest) == [c] + Split(rest)
  {
    var s := c + "/" + rest;
    assert s[|c|] == '/';
    FirstSlashBehind(c, rest);
    assert s[..|c|] == c && s[|c| + 1..] == rest;
  }

  lemma {:induction false} FirstSlashBehind(c: string, rest: string)
    requires '/' !in c && '/' in c + "/" + rest
    ensures FirstSlash(c + "/" + rest) == |c|
  {
    var s := c + "/" + rest;
    if c != "" {
      assert s[0] == c[0] && c[0] in c;
      assert s[1..] == c[1..] + "/" + rest && s[1..][|c| - 1] == '/';
      FirstSlashBehind(c[1..], rest);
    }
  }

  function Parse(s: string): Path {
    Path(s != "" && s[0] == '/', Split(s))
  }

  /** One component after another: empty ones and dots vanish, a double dot takes the last
      name away, and has nothing to take at the root. */
  function Walk(rooted: bool, at: Parts, parts: Parts): Parts
    decreases |parts|
  {
    if parts == [] then at else Walk(rooted, Enter(rooted, at, parts[0]), parts[1..])
  }

  function Enter(rooted: bool, at: Parts, c: string): Parts {
    if c == "" || c == "." then at
    else if c == ".." then
      if at != [] && at[|at| - 1] != ".." then at[..|at| - 1]
      else if rooted then at else at + [c]
    else at + [c]
  }

  function Clean(p: Path): Path { Path(p.rooted, Walk(p.rooted, [], p.parts)) }

  function Join(a: Path, b: Parts): Path { Clean(Path(a.rooted, a.parts + b)) }

  function Abs(cwd: Parts, p: Path): Parts {
    if p.rooted then Clean(p).parts else Join(Path(true, cwd), p.parts).parts
  }

  lemma {:induction false} WalkAppend(rooted: bool, at: Parts, a: Parts, b: Parts)
    ensures Walk(rooted, at, a + b) == Walk(rooted, Walk(rooted, at, a), b)
    decreases |a|
  {
    if a == [] {
      assert a + b == b;
    } else {
      assert (a + b)[1..] == a[1..] + b;
      WalkAppend(rooted, Enter(rooted, at, a[0]), a[1..], b);
    }
  }

  lemma {:induction false} WalkNames(rooted: bool, at: Parts, p: Parts)
    requires Names(p)
    ensures Walk(rooted, at, p) == at + p
    decreases |p|
  {
    if p != [] {
      WalkNames(rooted, at + [p[0]], p[1..]);
    }
  }

  lemma {:induction false} RootedWalkIsNames(at: Parts, p: Parts)
    requires Names(at)
    ensures Names(Walk(true, at, p))
    decreases |p|
  {
    if p != [] {
      RootedWalkIsNames(Enter(true, at, p[0]), p[1..]);
    }
  }

  lemma {:induction false} RootedWalkIsNormal(at: Parts, p: Parts)
    requires AllNormal(at) && forall c :: c in p ==> '/' !in c
    ensures AllNormal(Walk(true, at, p))
    decreases |p|
  {
    if p != [] {
      RootedWalkIsNormal(Enter(true, at, p[0]), p[1..]);
    }
  }

  lemma {:induction false} SplitHasNoSlash(s: string)
    ensures forall c :: c in Split(s) ==> '/' !in c
    decreases |s|
  {
    if '/' in s {
      SplitHasNoSlash(s[FirstSlash(s) + 1..]);
    }
  }

  lemma WalkOne(rooted: bool, at: Parts, c: string)
    ensures Walk(rooted, at, [c]) == Enter(rooted, at, c)
  {
    assert [c][1..] == [];
  }

  lemma EnterCommutes(from: Parts, rel: Parts, c: string)
    requires forall i :: 0 <= i < |rel| ==> rel[i] != "" && rel[i] != "."
    ensures Walk(true, from, Enter(false, rel, c)) == Enter(true, Walk(true, from, rel), c)
  {
    if c == ".." && rel != [] && rel[|rel| - 1] != ".." {
      var n := |rel| - 1;
      assert rel == rel[..n] + [rel[n]];
      WalkAppend(true, from, rel[..n], [rel[n]]);
      WalkOne(true, Walk(true, from, rel[..n]), rel[n]);
    } else if c != "" && c != "." {
      WalkAppend(true, from, rel, [c]);
      WalkOne(true, Walk(true, from, rel), c);
    }
  }

  /** Cleaning a relative path first and walking it afterwards leads to the same place. */
  lemma {:induction false} WalkCleaned(from: Parts, rel: Parts, p: Parts)
    requires forall i :: 0 <= i < |rel| ==> rel[i] != "" && rel[i] != "."
    ensures Walk(true, from, Walk(false, rel, p)) == Walk(true, Walk(true, from, rel), p)
    decreases |p|
  {
    if p != [] {
      EnterCommutes(from, rel, p[0]);
      WalkCleaned(from, Enter(false, rel, p[0]), p[1..]);
    }
  }

  /** Joining a path to the workspace root and making it absolute is walking it from there. */
  lemma AbsOfJoin(cwd: Parts, root: Path, arg: Parts)
    ensures Abs(cwd, Join(root, arg)) == Walk(true, Abs(cwd, root), arg)
    ensures Abs(cwd, Clean(root)) == Abs(cwd, root)
  {
    if root.rooted {
      RootedAbs(root.parts, arg);
    } else {
      WalkAppend(true, [], cwd, root.parts);
      WalkAppend(true, [], cwd, root.parts + arg);
      WalkAppend(true, Walk(true, [], cwd), root.parts, arg);
      WalkAppend(true, [], cwd, Walk(false, [], root.parts + arg));
      WalkAppend(true, [], cwd, Walk(false, [], root.parts));
      WalkCleaned(Walk(true, [], cwd), [], root.parts + arg);
      WalkCleaned(Walk(true, [], cwd), [], root.parts);
    }
  }

  lemma RootedAbs(root: Parts, arg: Parts)
    ensures Walk(true, [], Walk(true, [], root + arg)) == Walk(true, Walk(true, [], root), arg)
    ensures Walk(true, [], Walk(true, [], root)) == Walk(true, [], root)
  {
    WalkAppend(true, [], root, arg);
    RootedWalkIsNames([], root);
    RootedWalkIsNames([], root + arg);
    WalkFromRoot(Walk(true, [], root));
    WalkFromRoot(Walk(true, [], root + arg));
  }

  lemma WalkFromRoot(names: Parts)
    requires Names(names)
    ensures Walk(true, [], names) == names
  {
    WalkNames(true, [], names);
    assert [] + names == names;
  }

  // ---------------------------------------------------------------------------------------
  // The walk up
  // ---------------------------------------------------------------------------------------

  /** The deepest prefix of `p` that exists, by its length. Only a missing file lets the walk
      go on; any other failure stops it, and so does running out of parents. */
  function Ancestor(resolve: Resolver, p: Parts): (r: Result<nat, PathError>)
    ensures r.Ok? ==> r.value <= |p| && resolve(p[..r.value]).Resolved?
  {
    assert p[..|p|] == p;
    match resolve(p)
    case Resolved(_) => Ok(|p|)
    case Unreadable(why) => Err(Other(why))
    case Missing =>
      if p == [] then Err(NotExist) else
        assert forall k :: 0 <= k < |p| ==> p[..|p| - 1][..k] == p[..k];
        Ancestor(resolve, p[..|p| - 1])
  }

  /** Where the walk stops, told without walking. */
  ghost predicate StopsAt(resolve: Resolver, p: Parts, k: nat) {
    k <= |p| && !resolve(p[..k]).Missing? && forall j :: k < j <= |p| ==> resolve(p[..j]).Missing?
  }

  lemma {:induction false} AncestorIsDeepest(resolve: Resolver, p: Parts, k: nat)
    ensures Ancestor(resolve, p) == Ok(k) <==> StopsAt(resolve, p, k) && resolve(p[..k]).Resolved?
    ensures Ancestor(resolve, p) == Err(NotExist) <==> forall j :: 0 <= j <= |p| ==> resolve(p[..j]).Missing?
    ensures StopsAt(resolve, p, k) && resolve(p[..k]).Unreadable? ==>
      Ancestor(resolve, p) == Err(Other(resolve(p[..k]).why))
    decreases |p|
  {
    assert p[..|p|] == p;
    if resolve(p).Missing? {
      if p != [] {
        var up := p[..|p| - 1];
        AncestorIsDeepest(resolve, up, k);
        assert forall j :: 0 <= j <= |up| ==> up[..j] == p[..j];
        if StopsAt(resolve, p, k) && resolve(p[..k]).Resolved? { assert k != |p|; }
      }
    }
  }

  /** Walks up from `path` until something exists; returns its resolution and the part of the
      path below it. */
  method SplitExistingAncestor(resolve: Resolver, cwd: Parts, path: Path) returns (r: Result<(Parts, Parts), PathError>)
    requires AllNormal(cwd) && forall c :: c in path.parts ==> '/' !in c
    ensures var abs := Abs(cwd, path);
      match Ancestor(resolve, abs)
      case Ok(k) => r == Ok((resolve(abs[..k]).parts, abs[k..]))
      case Err(e) => r == Err(e)
  {
    var abs := Abs(cwd, path);
    AbsIsNormal(cwd, path);
    var current := abs;
    var remainder: Parts := [];
    while true
      invariant |current| <= |abs| && current == abs[..|current|]
      invariant |remainder| == |abs| - |current|
      invariant forall i :: 0 <= i < |remainder| ==> remainder[i] == abs[|abs| - 1 - i]
      invariant Ancestor(resolve, current) == Ancestor(resolve, abs)
      decreases |current|
    {
      match resolve(current)
      case Resolved(parts) =>
        var below := Reversed(remainder);
        assert below == abs[|current|..];
        WalkNames(false, [], below);
        assert [] + below == below;
        return Ok((parts, Clean(Path(false, below)).parts));
      case Unreadable(why) =>
        return Err(Other(why));
      case Missing =>
        if current == [] {
          return Err(NotExist);
        }
        remainder := remainder + [current[|current| - 1]];
        current := current[..|current| - 1];
    }
  }

  /** The remainder is collected from the bottom up and turned around at the end. */
  method Reversed(parts: Parts) returns (reversed: Parts)
    ensures |reversed| == |parts| && forall i :: 0 <= i < |parts| ==> reversed[i] == parts[|parts| - 1 - i]
  {
    var out := new string[|parts|](_ => "");
    for i := 0 to |parts|
      invariant forall j :: |parts| - i <= j < |parts| ==> out[j] == parts[|parts| - 1 - j]
    {
      out[|parts| - 1 - i] := parts[i];
    }
    reversed := out[..];
  }

  lemma AbsIsNormal(cwd: Parts, path: Path)
    requires AllNormal(cwd) && forall c :: c in path.parts ==> '/' !in c
    ensures AllNormal(Abs(cwd, path))
  {
    RootedWalkIsNormal([], path.parts);
    RootedWalkIsNormal([], cwd + path.parts);
  }

  // ---------------------------------------------------------------------------------------
  // Resolution and containment
  // ---------------------------------------------------------------------------------------

  /** The existing ancestor resolved, the rest as it is. */
  function Defensive(resolve: Resolver, p: Parts): Result<Parts, PathError> {
    match Ancestor(resolve, p)
    case Err(e) => Err(e)
    case Ok(k) => Ok(resolve(p[..k]).parts + p[k..])
  }

  method ResolveDefensive(resolve: Resolver, cwd: Parts, path: Path) returns (r: Result<Parts, PathError>)
    requires AllNormal(cwd) && forall c :: c in path.parts ==> '/' !in c
    requires CleanResolver(resolve)
    ensures r == Defensive(resolve, Abs(cwd, path))
    ensures r.Ok? ==> AllNormal(r.value)
  {
    var split := SplitExistingAncestor(resolve, cwd, path);
    AbsIsNormal(cwd, path);
    if split.Err? {
      return Err(split.error);
    }
    var (ancestor, remainder) := split.value;
    if remainder == [] {
      assert ancestor + remainder == ancestor;
      return Ok(ancestor);
    }
    WalkNames(true, [], ancestor + remainder);
    assert [] + (ancestor + remainder) == ancestor + remainder;
    return Ok(Join(Path(true, ancestor), remainder).parts);
  }

  method ResolveExistingAncestor(resolve: Resolver, cwd: Parts, path: Path) returns (r: Result<Parts, PathError>)
    requires AllNormal(cwd) && forall c :: c in path.parts ==> '/' !in c
    ensures var abs := Abs(cwd, path);
      match Ancestor(resolve, abs)
      case Ok(k) => r == Ok(resolve(abs[..k]).parts)
      case Err(e) => r == Err(e)
  {
    var split := SplitExistingAncestor(resolve, cwd, path);
    r := if split.Ok? then Ok(split.value.0) else Err(split.error);
  }

  /** A relative path from one clean absolute path to another, as the text the test reads. */
  function Rel(base: Parts, target: Parts): string {
    var n := Common(base, target);
    if n == |base| == |target| then "." else Slashed(seq(|base| - n, _ => "..") + target[n..])
  }

  function Common(a: Parts, b: Parts): (n: nat)
    ensures n <= |a| && n <= |b| && a[..n] == b[..n]
    ensures n < |a| && n < |b| ==> a[n] != b[n]
  {
    if a == [] || b == [] || a[0] != b[0] then 0 else
      assert a == [a[0]] + a[1..] && b == [b[0]] + b[1..];
      1 + Common(a[1..], b[1..])
  }

  /** A relative path leads from its base to its target. */
  lemma RelLeadsToTarget(base: Parts, target: Parts)
    requires AllNormal(base) && AllNormal(target)
    ensures Walk(true, base, Split(Rel(base, target))) == target
  {
    hide Walk, Split, Slashed, Common;
    var n := Common(base, target);
    if n == |base| == |target| {
      DotIsOnePart();
      WalkOne(true, base, ".");
      assert base[..n] == base && target[..n] == target;
    } else {
      var up, down := seq(|base| - n, _ => ".."), target[n..];
      assert forall c :: c in up + down ==> '/' !in c;
      SlashedThenSplit(up + down);
      WalkAppend(true, base, up, down);
      WalkUp(base, n, up);
      WalkNames(true, base[..n], down);
      assert target == target[..n] + down;
    }
  }

  lemma DotIsOnePart()
    ensures Split(".") == ["."]
  {
  }

  lemma {:induction false} WalkUp(base: Parts, n: nat, up: Parts)
    requires Names(base) && n <= |base| && |up| == |base| - n && forall i :: 0 <= i < |up| ==> up[i] == ".."
    ensures Walk(true, base, up) == base[..n]
    decreases |up|
  {
    if up == [] {
      assert base[..n] == base;
    } else {
      var parent := base[..|base| - 1];
      assert parent[..n] == base[..n];
      WalkUp(parent, n, up[1..]);
    }
  }

  /** The acceptance test of the source. */
  predicate Escapes(rel: string) { rel == ".." || "../" <= rel }

  /** The test reads the first component off the text, and is not misled by names that merely
      begin with two dots. */
  lemma EscapesReadsFirstComponent(parts: Parts)
    requires parts != [] && '/' !in parts[0]
    ensures Escapes(Slashed(parts)) <==> parts[0] == ".."
  {
    var c, s := parts[0], Slashed(parts);
    assert |parts| > 1 ==> s == c + ("/" + Slashed(parts[1..])) && s[|c|] == '/';
    assert "../" <= s ==> s[0] == "../"[0] && s[1] == "../"[1] && s[2] == "../"[2];
    assert |c| == 2 && c[0] == '.' && c[1] == '.' ==> c == "..";
    assert forall i :: 0 <= i < |c| ==> c[i] == s[i] && c[i] in c;
    if |parts| > 1 && c == ".." {
      assert s[..3] == "../";
    }
  }

  /** Containment is decided exactly. */
  lemma RelDecidesContainment(base: Parts, target: Parts)
    requires AllNormal(base) && AllNormal(target)
    ensures Escapes(Rel(base, target)) <==> !(base <= target)
  {
    var n := Common(base, target);
    if n == |base| == |target| {
      assert !Escapes(".");
    } else {
      var parts := seq(|base| - n, _ => "..") + target[n..];
      EscapesReadsFirstComponent(parts);
      if n < |base| {
        assert parts[0] == "..";
        assert n < |target| ==> base[n] != target[n];
      } else {
        assert parts[0] == target[n];
      }
    }
  }

  /** What a tool path resolves to: contained in the resolved root, or refused. */
  function Contained(resolve: Resolver, cwd: Parts, root: string, arg: string): Result<Parts, PathError> {
    if arg == "" || arg[0] == '/' then Err(PathEscape) else
      var base := Abs(cwd, Parse(root));
      match Ancestor(resolve, base)
      case Err(e) => Err(e)
      case Ok(k) =>
        match Defensive(resolve, Walk(true, base, Split(arg)))
        case Err(e) => Err(e)
        case Ok(target) =>
          if resolve(base[..k]).parts <= target then Ok(target) else Err(PathEscape)
  }

  method ResolvePath(resolve: Resolver, cwd: Parts, root: string, arg: string) returns (r: Result<Parts, PathError>)
    requires AllNormal(cwd) && CleanResolver(resolve)
    ensures r == Contained(resolve, cwd, root, arg)
    ensures arg == "" || arg[0] == '/' ==> r == Err(PathEscape)
    ensures r.Ok? ==> AllNormal(r.value)
  {
    if arg == "" || arg[0] == '/' {
      return Err(PathEscape);
    }
    SplitHasNoSlash(root);
    SplitHasNoSlash(arg);
    AbsOfJoin(cwd, Parse(root), Split(arg));
    AbsOfJoin(cwd, Join(Parse(root), Split(arg)), []);
    var joined := Join(Parse(root), Split(arg));
    var clean := Clean(joined);
    CleanHasNoSlash(Path(joined.rooted, Parse(root).parts + Split(arg)));
    CleanHasNoSlash(joined);
    var rootResolved := ResolveExistingAncestor(resolve, cwd, Parse(root));
    if rootResolved.Err? {
      return Err(rootResolved.error);
    }
    var resolved := ResolveDefensive(resolve, cwd, clean);
    if resolved.Err? {
      return Err(resolved.error);
    }
    var rel := Rel(rootResolved.value, resolved.value);
    RelDecidesContainment(rootResolved.value, resolved.value);
    if Escapes(rel) {
      return Err(PathEscape);
    }
    return resolved;
  }

  lemma CleanHasNoSlash(p: Path)
    requires forall c :: c in p.parts ==> '/' !in c
    ensures forall c :: c in Clean(p).parts ==> '/' !in c
  {
    WalkHasNoSlash(p.rooted, [], p.parts);
  }

  lemma {:induction false} WalkHasNoSlash(rooted: bool, at: Parts, p: Parts)
    requires forall c :: c in at + p ==> '/' !in c
    ensures forall c :: c in Walk(rooted, at, p) ==> '/' !in c
    decreases |p|
  {
    if p != [] {
      assert p[0] in at + p;
      assert forall c :: c in Enter(rooted, at, p[0]) + p[1..] ==> c in at + p || c == "..";
      WalkHasNoSlash(rooted, Enter(rooted, at, p[0]), p[1..]);
    }
  }

  // ---------------------------------------------------------------------------------------
  // What containment promises
  // ---------------------------------------------------------------------------------------

  /** Exactness: with an existing root and no other resolution error, a non-empty relative
      argument is accepted if and only if where it leads is inside the resolved root; what is
      returned is the resolved deepest existing ancestor with the names below it, and none of
      those is a double dot. */
  lemma ContainmentIsExact(resolve: Resolver, cwd: Parts, root: string, arg: string)
    requires AllNormal(cwd) && CleanResolver(resolve)
    requires arg != "" && arg[0] != '/'
    requires resolve(Abs(cwd, Parse(root))).Resolved?
    requires Defensive(resolve, Walk(true, Abs(cwd, Parse(root)), Split(arg))).Ok?
    ensures var base := Abs(cwd, Parse(root));
      var path := Walk(true, base, Split(arg));
      var target := Defensive(resolve, path).value;
      && (Contained(resolve, cwd, root, arg) == Ok(target) <==> resolve(base).parts <= target)
      && (Contained(resolve, cwd, root, arg) == Err(PathEscape) <==> !(resolve(base).parts <= target))
      && (exists k: nat :: StopsAt(resolve, path, k) &&
            resolve(path[..k]).Resolved? && target == resolve(path[..k]).parts + path[k..])
      && AllNormal(path) && AllNormal(target)
  {
    var base := Abs(cwd, Parse(root));
    var path := Walk(true, base, Split(arg));
    assert base[..|base|] == base;
    SplitHasNoSlash(root);
    SplitHasNoSlash(arg);
    AbsIsNormal(cwd, Parse(root));
    RootedWalkIsNormal(base, Split(arg));
    AncestorIsDeepest(resolve, path, Ancestor(resolve, path).value);
  }

  // ---------------------------------------------------------------------------------------
  // Where plain texts lead
  // ---------------------------------------------------------------------------------------

  /** Only missing and existing files, none of which is a symlink. */
  ghost predicate Plain(resolve: Resolver) {
    forall p :: resolve(p) == Resolved(p) || resolve(p).Missing?
  }

  /** A component that changes nothing. */
  predicate Idle(c: string) { c == "" || c == "." }

  /** Some components without those that change nothing. */
  function Named(parts: Parts): Parts {
    if parts == [] then [] else (if Idle(parts[0]) then [] else [parts[0]]) + Named(parts[1..])
  }

  lemma {:induction false} WalkSkipsIdle(at: Parts, parts: Parts)
    requires forall c :: c in parts ==> Idle(c) || Name(c)
    ensures Walk(true, at, parts) == at + Named(parts)
    decreases |parts|
  {
    if parts == [] {
      assert at + Named(parts) == at;
    } else {
      var c, rest := parts[0], parts[1..];
      assert c in parts && forall d :: d in rest ==> d in parts;
      WalkSkipsIdle(Enter(true, at, c), rest);
      StepThenRest(at, c, Named(rest));
    }
  }

  lemma StepThenRest(at: Parts, c: string, rest: Parts)
    requires Idle(c) || Name(c)
    ensures Enter(true, at, c) + rest == at + ((if Idle(c) then [] else [c]) + rest)
  {
  }

  /** An absolute root, and a relative one. */
  lemma RootInText(cwd: Parts, names: Parts)
    requires AllNormal(cwd) && AllNormal(names) && names != []
    ensures Abs(cwd, Parse("/" + Slashed(names))) == names
    ensures Abs(cwd, Parse(Slashed(names))) == cwd + names
  {
    NamesInText(names);
    hide Walk, Split, Slashed;
    assert Abs(cwd, Path(true, [""] + names)) == names by {
      WalkAppend(true, [], [""], names);
      WalkOne(true, [], "");
      WalkNames(true, [], names);
      assert [] + names == names;
    }
    assert Abs(cwd, Path(false, names)) == cwd + names by {
      WalkNames(true, [], cwd + names);
      assert [] + (cwd + names) == cwd + names;
    }
  }

  lemma NamesInText(names: Parts)
    requires AllNormal(names) && names != []
    ensures Parse(Slashed(names)) == Path(false, names)
    ensures Parse("/" + Slashed(names)) == Path(true, [""] + names)
  {
    var text := Slashed(names);
    SlashedThenSplit(names);
    SplitOnce("", text);
    assert "" + "/" + text == "/" + text;
    BeginsWithFirst(names);
    hide Split, Slashed;
    assert names[0][0] in names[0];
  }

  lemma BeginsWithFirst(parts: Parts)
    requires parts != [] && parts[0] != ""
    ensures Slashed(parts) != "" && Slashed(parts)[0] == parts[0][0]
  {
    assert |parts| > 1 ==> Slashed(parts) == parts[0] + ("/" + Slashed(parts[1..]));
  }

  /** In a tree without symlinks: an argument whose components are names, and perhaps empty ones and
      dots that change nothing, is accepted as the root with those names below it, in order. */
  lemma PlainTextsLeadBelowTheRoot(resolve: Resolver, cwd: Parts, root: string, parts: Parts)
    requires AllNormal(cwd) && CleanResolver(resolve) && Plain(resolve)
    requires resolve(Abs(cwd, Parse(root))).Resolved?
    requires parts != [] && forall c :: c in parts ==> (Idle(c) || Name(c)) && '/' !in c
    requires Slashed(parts) != "" && Slashed(parts)[0] != '/'
    ensures Contained(resolve, cwd, root, Slashed(parts)) == Ok(Abs(cwd, Parse(root)) + Named(parts))
    ensures Names(parts) ==> Named(parts) == parts
  {
    var base := Abs(cwd, Parse(root));
    SlashedThenSplit(parts);
    WalkSkipsIdle(base, parts);
    if Names(parts) { AllNamed(parts); }
    var path := base + Named(parts);
    assert base[..|base|] == base;
    PlainDefensive(resolve, path, |base|);
  }

  lemma {:induction false} AllNamed(parts: Parts)
    requires Names(parts)
    ensures Named(parts) == parts
  {
    if parts != [] {
      AllNamed(parts[1..]);
      assert parts == [parts[0]] + parts[1..];
    }
  }

  /** Where something above exists, nothing is lost on the way up and down. */
  lemma {:induction false} PlainDefensive(resolve: Resolver, path: Parts, k: nat)
    requires Plain(resolve) && k <= |path| && resolve(path[..k]).Resolved?
    ensures Ancestor(resolve, path).Ok? && Defensive(resolve, path) == Ok(path)
    decreases |path|
  {
    assert path[..|path|] == path;
    if resolve(path).Missing? {
      var up := path[..|path| - 1];
      assert k < |path| && up[..k] == path[..k];
      PlainDefensive(resolve, up, k);
    }
    var n := Ancestor(resolve, path).value;
    assert resolve(path[..n]) == Resolved(path[..n]);
    assert path[..n] + path[n..] == path;
  }

  /** A double dot takes back the name before it, anywhere in an argument. */
  lemma DoubleDotTakesBack(resolve: Resolver, cwd: Parts, root: string, before: Parts, name: string, after: Parts)
    requires forall c :: c in before + [name] + after ==> '/' !in c
    requires Name(name) && before + after != []
    requires Slashed(before + after) != "" && Slashed(before + after)[0] != '/'
    requires Slashed(before + [name, ".."] + after) != "" && Slashed(before + [name, ".."] + after)[0] != '/'
    ensures Contained(resolve, cwd, root, Slashed(before + [name, ".."] + after)) ==
            Contained(resolve, cwd, root, Slashed(before + after))
  {
    var base, there := Abs(cwd, Parse(root)), before + [name, ".."] + after;
    assert forall c :: c in there ==> c in before + [name] + after || c == "..";
    assert forall c :: c in before + after ==> c in before + [name] + after;
    SlashedThenSplit(there);
    SlashedThenSplit(before + after);
    WalkTakesBack(base, before, name, after);
    hide Walk, Split, Slashed, Defensive, Ancestor, Abs;
  }

  lemma WalkTakesBack(base: Parts, before: Parts, name: string, after: Parts)
    requires Name(name)
    ensures Walk(true, base, before + [name, ".."] + after) == Walk(true, base, before + after)
  {
    var at, back := Walk(true, base, before), [name, ".."];
    WalkAppend(true, base, before + back, after);
    WalkAppend(true, base, before, back);
    WalkAppend(true, base, before, after);
    assert back == [name] + [".."];
    WalkAppend(true, at, [name], [".."]);
    WalkOne(true, at, name);
    WalkOne(true, at + [name], "..");
    assert (at + [name])[..|at|] == at;
  }

  /** Whether an accepted path is inside the root itself, existing or not. */
  ghost predicate InsideRoot(resolve: Resolver, cwd: Parts, root: string, arg: string) {
    Contained(resolve, cwd, root, arg).Ok? ==>
      var inside := Defensive(resolve, Abs(cwd, Parse(root)));
      inside.Ok? && inside.value <= Contained(resolve, cwd, root, arg).value
  }

  /** The promise that every accepted path lies in the workspace holds exactly when the root
      exists: a missing root is represented by its nearest existing ancestor, and then the
      argument ".." is accepted although it leaves the workspace. */
  lemma PromiseHoldsExactlyWhenRootExists(resolve: Resolver, cwd: Parts, root: string)
    requires AllNormal(cwd) && CleanResolver(resolve)
    requires Ancestor(resolve, Abs(cwd, Parse(root))).Ok?
    ensures (forall arg :: InsideRoot(resolve, cwd, root, arg)) <==> resolve(Abs(cwd, Parse(root))).Resolved?
  {
    var base := Abs(cwd, Parse(root));
    var k := Ancestor(resolve, base).value;
    assert base[..|base|] == base;
    AncestorIsDeepest(resolve, base, k);
    if resolve(base).Resolved? {
      assert resolve(base).parts + base[|base|..] == resolve(base).parts;
      forall arg ensures InsideRoot(resolve, cwd, root, arg) {}
    } else {
      var n := |base| - 1;
      assert Split("..") == [".."];
      WalkOne(true, base, "..");
      RootedWalkIsNames([], if Parse(root).rooted then Parse(root).parts else cwd + Parse(root).parts);
      var parent := base[..n];
      assert Walk(true, base, Split("..")) == parent;
      assert forall j :: 0 <= j <= n ==> parent[..j] == base[..j];
      AncestorIsDeepest(resolve, parent, k);
      assert Contained(resolve, cwd, root, "..") == Ok(resolve(base[..k]).parts + parent[k..]);
      assert |Defensive(resolve, base).value| > |Contained(resolve, cwd, root, "..").value|;
      assert !InsideRoot(resolve, cwd, root, "..");
    }
  }
}
