/** The edit tool: replace a substring that is counted exactly once. */
module Edit {
  import opened Wrappers
  import opened Paths

  // ---------------------------------------------------------------------------------------
  // Occurrences
  // ---------------------------------------------------------------------------------------

  predicate OccursAt(s: string, t: string, i: nat) {
    i + |t| <= |s| && s[i..i + |t|] == t
  }

  /** The first occurrence at or after `from`, if there is one. */
  function Index(s: string, t: string, from: nat): (r: Option<nat>)
    ensures r.Some? ==> from <= r.value && OccursAt(s, t, r.value)
    ensures r.Some? ==> forall k :: from <= k < r.value ==> !OccursAt(s, t, k)
    ensures r.None? ==> forall k :: from <= k ==> !OccursAt(s, t, k)
    decreases |s| - from
  {
    if from + |t| > |s| then None
    else if s[from..from + |t|] == t then Some(from)
    else Index(s, t, from + 1)
  }

  /** Counts occurrences left to right, each starting after the end of the one before. */
  function Count(s: string, t: string, from: nat := 0): nat
    requires t != ""
    decreases |s| - from
  {
    var i := Index(s, t, from);
    if i.None? then 0 else 1 + Count(s, t, i.value + |t|)
  }

  function ReplaceFirst(s: string, t: string, sub: string): string {
    var i := Index(s, t, 0);
    if i.None? then s else s[..i.value] + sub + s[i.value + |t|..]
  }

  // ---------------------------------------------------------------------------------------
  // The tool
  // ---------------------------------------------------------------------------------------

  datatype Args = Args(path: string, old_: string, new_: string)

  datatype Outcome =
    | Replaced
    | InvalidArgs
    | PathRefused(e: PathError)
    | ReadFailed
    | NotFound
    | NotUnique(count: nat)
    | WriteFailed

  class Workspace {
    const resolve: Resolver
    const cwd: Parts
    const root: string

    var files: map<Parts, string>

    ghost predicate Valid() {
      AllNormal(cwd) && CleanResolver(resolve)
    }

    constructor (resolve: Resolver, cwd: Parts, root: string)
      requires AllNormal(cwd) && CleanResolver(resolve)
      ensures Valid()
    {
      this.resolve, this.cwd, this.root := resolve, cwd, root;
      files := map[];
    }

    method ReadFile(path: Parts, readable: bool) returns (content: Option<string>)
      ensures content == if readable && path in files then Some(files[path]) else None
    {
      if path !in files || !readable { return None; }
      return Some(files[path]);
    }

    /** A failing write may leave anything in the file it was writing. */
    method WriteFile(path: Parts, content: string, writable: bool) returns (ok: bool)
      modifies this
      ensures ok == writable
      ensures ok ==> files == old(files)[path := content]
      ensures files - {path} == old(files) - {path}
    {
      var left: string := *;
      files := files[path := if writable then content else left];
      return writable;
    }

    /** A file is written exactly when its old string is counted exactly once in it, and then
        in exactly that place. A failing write may spoil the file it writes and no other; every
        other outcome leaves all files as they were. */
    method Invoke(a: Args, readable: bool, writable: bool) returns (outcome: Outcome)
      requires Valid()
      modifies this
      ensures var path := Contained(resolve, cwd, root, a.path);
        if a.path == "" || a.old_ == "" || a.new_ == "" then outcome == InvalidArgs && files == old(files)
        else if path.Err? then outcome == PathRefused(path.error) && files == old(files)
        else if !readable || path.value !in old(files) then outcome == ReadFailed && files == old(files)
        else
          var content := old(files)[path.value];
          var count := Count(content, a.old_);
          && (count == 0 <==> outcome == NotFound)
          && (count > 1 <==> outcome == NotUnique(count))
          && (count == 1 <==> outcome == if writable then Replaced else WriteFailed)
          && (count != 1 ==> files == old(files))
          && files - {path.value} == old(files) - {path.value}
          && (outcome == Replaced ==> files == old(files)[path.value := ReplaceFirst(content, a.old_, a.new_)])
    {
      if a.path == "" || a.old_ == "" || a.new_ == "" { return InvalidArgs; }
      var resolved := ResolvePath(resolve, cwd, root, a.path);
      if resolved.Err? { return PathRefused(resolved.error); }
      var content := ReadFile(resolved.value, readable);
      if content.None? { return ReadFailed; }
      var count := Count(content.value, a.old_);
      if count == 0 { return NotFound; }
      if count > 1 { return NotUnique(count); }
      var updated := ReplaceFirst(content.value, a.old_, a.new_);
      var ok := WriteFile(resolved.value, updated, writable);
      return if ok then Replaced else WriteFailed;
    }
  }

  // ---------------------------------------------------------------------------------------
  // What being counted once means
  // ---------------------------------------------------------------------------------------

  /** The place of a replacement: nothing starts before it, nothing starts after its end. */
  ghost predicate OnlyPlace(s: string, t: string, i: nat) {
    && OccursAt(s, t, i)
    && (forall k :: 0 <= k < i ==> !OccursAt(s, t, k))
    && (forall k :: i + |t| <= k ==> !OccursAt(s, t, k))
  }

  lemma CountedOnceMeansOnePlace(s: string, t: string, sub: string)
    requires t != ""
    ensures Count(s, t) == 1 <==> exists i: nat :: OnlyPlace(s, t, i)
    ensures forall i: nat :: OnlyPlace(s, t, i) ==> ReplaceFirst(s, t, sub) == s[..i] + sub + s[i + |t|..]
  {
    var first := Index(s, t, 0);
    if first.Some? {
      var at := first.value;
      var next := Index(s, t, at + |t|);
      assert next.None? ==> OnlyPlace(s, t, at);
      assert forall i: nat :: OnlyPlace(s, t, i) ==> i == at;
      assert OnlyPlace(s, t, at) ==> next.None?;
    }
  }

  /** Some places, from `from` on, where `t` occurs without one occurrence reaching into the next. */
  ghost predicate Apart(s: string, t: string, from: nat, places: seq<nat>) {
    && (forall i :: 0 <= i < |places| ==> from <= places[i] && OccursAt(s, t, places[i]))
    && (forall i, j :: 0 <= i < j < |places| ==> places[i] + |t| <= places[j])
  }

  /** The count that is reported is the greatest number of occurrences that do not overlap. */
  lemma {:induction false} CountIsMostApart(s: string, t: string, from: nat) returns (most: seq<nat>)
    requires t != ""
    ensures Apart(s, t, from, most) && |most| == Count(s, t, from)
    ensures forall places :: Apart(s, t, from, places) ==> |places| <= Count(s, t, from)
    decreases |s| - from
  {
    hide OccursAt, Index, Apart;
    var first := Index(s, t, from);
    if first.None? {
      most := [];
      NoneApart(s, t, from);
    } else {
      var next := first.value + |t|;
      OccurrenceFits(s, t, first.value);
      var rest := CountIsMostApart(s, t, next);
      most := [first.value] + rest;
      OneMoreApart(s, t, from, first.value, rest);
      forall places | Apart(s, t, from, places) ensures |places| <= Count(s, t, from) {
        if places != [] {
          WithoutFirst(s, t, from, first.value, places);
          assert |places[1..]| == |places| - 1;
        }
      }
    }
  }

  lemma NoneApart(s: string, t: string, from: nat)
    requires forall k :: from <= k ==> !OccursAt(s, t, k)
    ensures Apart(s, t, from, []) && forall places :: Apart(s, t, from, places) ==> |places| == 0
  {
    forall places | places != [] ensures !Apart(s, t, from, places) {
      FirstIsNoPlace(s, t, from, places);
    }
    hide OccursAt;
  }

  lemma FirstIsNoPlace(s: string, t: string, from: nat, places: seq<nat>)
    requires places != [] && (from <= places[0] ==> !OccursAt(s, t, places[0]))
    ensures !Apart(s, t, from, places)
  {
    hide OccursAt;
  }

  lemma OneMoreApart(s: string, t: string, from: nat, first: nat, rest: seq<nat>)
    requires from <= first && OccursAt(s, t, first) && Apart(s, t, first + |t|, rest)
    ensures Apart(s, t, from, [first] + rest)
  {
    hide OccursAt;
  }

  lemma OccurrenceFits(s: string, t: string, i: nat)
    requires OccursAt(s, t, i)
    ensures i + |t| <= |s|
  {
  }

  lemma WithoutFirst(s: string, t: string, from: nat, first: nat, places: seq<nat>)
    requires Apart(s, t, from, places) && places != []
    requires forall k :: from <= k < first ==> !OccursAt(s, t, k)
    ensures Apart(s, t, first + |t|, places[1..])
  {
    hide OccursAt;
    assert first <= places[0];
  }

  // ---------------------------------------------------------------------------------------
  // Counted once against occurring once
  // ---------------------------------------------------------------------------------------

  /** A proper border is both a beginning and an end; only then can occurrences overlap. */
  predicate BorderOf(t: string, k: nat) {
    0 < k < |t| && t[..k] == t[|t| - k..]
  }

  predicate Borderless(t: string) {
    forall k :: 0 < k < |t| ==> !BorderOf(t, k)
  }

  ghost function Occurrences(s: string, t: string, from: nat): set<nat> {
    set i: nat | from <= i <= |s| && OccursAt(s, t, i)
  }

  lemma OverlapIsBorder(s: string, t: string, i: nat, j: nat)
    requires OccursAt(s, t, i) && OccursAt(s, t, j) && i < j < i + |t|
    ensures BorderOf(t, i + |t| - j)
  {
    var k := i + |t| - j;
    assert t[..k] == s[j..j + |t|][..k] == s[j..i + |t|];
    assert t[|t| - k..] == s[i..i + |t|][|t| - k..] == s[j..i + |t|];
  }

  /** Without borders nothing overlaps, so counting non-overlapping occurrences misses none. */
  lemma {:induction false} CountIsAllOccurrences(s: string, t: string, from: nat)
    requires t != "" && Borderless(t)
    ensures Count(s, t, from) == |Occurrences(s, t, from)|
    decreases |s| - from
  {
    hide OccursAt, Index, Borderless, Occurrences;
    var i := Index(s, t, from);
    if i.None? {
      NoOccurrences(s, t, from);
    } else {
      var next := OneOccurrenceLess(s, t, from, i.value);
      CountIsAllOccurrences(s, t, next);
    }
  }

  lemma NoOccurrences(s: string, t: string, from: nat)
    requires forall k :: from <= k ==> !OccursAt(s, t, k)
    ensures Occurrences(s, t, from) == {}
  {
  }

  lemma OneOccurrenceLess(s: string, t: string, from: nat, at: nat) returns (next: nat)
    requires t != "" && Borderless(t)
    requires from <= at && OccursAt(s, t, at) && forall k :: from <= k < at ==> !OccursAt(s, t, k)
    ensures next == at + |t| <= |s|
    ensures |Occurrences(s, t, from)| == 1 + |Occurrences(s, t, next)|
  {
    next := at + |t|;
    forall j | at < j < next ensures !OccursAt(s, t, j) {
      if OccursAt(s, t, j) { OverlapIsBorder(s, t, at, j); }
    }
    hide OccursAt;
    assert OccursAt(s, t, at);
    assert Occurrences(s, t, from) == {at} + Occurrences(s, t, next);
  }

  /** The tool promises to replace a uniquely occurring string. It keeps that promise on every
      file exactly when the string has no proper border: one with a border can overlap itself,
      and then two occurrences are counted as one. */
  lemma PromiseHoldsExactlyWhenBorderless(t: string)
    requires t != ""
    ensures (forall s :: Count(s, t) == 1 ==> |Occurrences(s, t, 0)| == 1) <==> Borderless(t)
  {
    if Borderless(t) {
      forall s ensures Count(s, t) == |Occurrences(s, t, 0)| {
        CountIsAllOccurrences(s, t, 0);
      }
    } else {
      var k :| 0 < k < |t| && BorderOf(t, k);
      BorderOverlaps(t, k);
      var s := t + t[k..];
      TwoMembers(Occurrences(s, t, 0), 0, |t| - k);
    }
  }

  /** A border lets a string overlap itself, in a file that counts it once. */
  lemma BorderOverlaps(t: string, k: nat)
    requires BorderOf(t, k)
    ensures var s := t + t[k..];
      Count(s, t) == 1 && 0 in Occurrences(s, t, 0) && |t| - k in Occurrences(s, t, 0)
  {
    hide OccursAt, Count, Occurrences;
    var s := t + t[k..];
    OverlappingOccurrences(t, k);
    CountedOnceAtFront(s, t);
    OccursIn(s, t, 0);
    OccursIn(s, t, |t| - k);
  }

  lemma OccursIn(s: string, t: string, i: nat)
    requires OccursAt(s, t, i)
    ensures i in Occurrences(s, t, 0)
  {
  }

  lemma OverlappingOccurrences(t: string, k: nat)
    requires BorderOf(t, k)
    ensures OccursAt(t + t[k..], t, 0) && OccursAt(t + t[k..], t, |t| - k)
  {
    var s := t + t[k..];
    var second := |t| - k;
    assert s[0..|t|] == t;
    assert s[second..second + |t|] == t[second..] + t[k..];
    assert t == t[..k] + t[k..];
  }

  lemma CountedOnceAtFront(s: string, t: string)
    requires t != "" && OccursAt(s, t, 0) && |s| < 2 * |t|
    ensures Count(s, t) == 1
  {
    assert Index(s, t, |t|).None?;
    assert Count(s, t, |t|) == 0;
  }

  lemma TwoMembers(s: set<nat>, a: nat, b: nat)
    requires a in s && b in s && a != b
    ensures |s| >= 2
  {
    assert b in s - {a};
    assert |s| == 1 + |s - {a}| && |s - {a}| == 1 + |s - {a} - {b}|;
  }

  // ---------------------------------------------------------------------------------------
  // Editing back
  // ---------------------------------------------------------------------------------------

  ghost predicate EditsBack(s: string, t: string, sub: string) {
    ReplaceFirst(ReplaceFirst(s, t, sub), sub, t) == s
  }

  /** An edit the tool makes, whose new string the tool would then edit. */
  ghost predicate EditableBothWays(s: string, t: string, sub: string)
    requires sub != ""
  {
    t != "" && Count(s, t) == 1 && Count(ReplaceFirst(s, t, sub), sub) == 1
  }

  /** Editing back restores every file, whatever was replaced, exactly when the new string has
      no proper border. */
  lemma EditingBackRestoresExactlyWhenBorderless(sub: string)
    requires sub != ""
    ensures (forall s, t :: EditableBothWays(s, t, sub) ==> EditsBack(s, t, sub)) <==> Borderless(sub)
  {
    hide EditsBack;
    if Borderless(sub) {
      forall s, t | EditableBothWays(s, t, sub) ensures EditsBack(s, t, sub) {
        ReverseEditRestores(s, t, sub);
      }
    } else {
      var k :| 0 < k < |sub| && BorderOf(sub, k);
      var s, t := BorderSpoilsTheWayBack(sub, k);
      assert EditableBothWays(s, t, sub) && !EditsBack(s, t, sub);
    }
  }

  /** Written before the end of its own beginning, a string with a border is found too early. */
  lemma BorderSpoilsTheWayBack(sub: string, k: nat) returns (s: string, t: string)
    requires BorderOf(sub, k)
    ensures EditableBothWays(s, t, sub) && !EditsBack(s, t, sub)
  {
    hide Count, OccursAt, BorderOf;
    BorderJoins(sub, k);
    var m := |sub| - k;
    var c := if sub[m - 1] == 'a' then 'b' else 'a';
    t := seq(|sub| + 1, _ => c);
    s := sub[..m] + t;
    FoundAfterPrefix(sub[..m], t);
    var r := ReplaceFirst(s, t, sub);
    ReplacedAtEnd(sub[..m], t, sub);
    OverlappingOccurrences(sub, k);
    CountedOnceAtFront(r, sub);
    var back := ReplaceFirst(r, sub, t);
    assert Index(r, sub, 0) == Some(0);
    assert back[m - 1] == c && s[m - 1] != c;
  }

  lemma BorderJoins(sub: string, k: nat)
    requires BorderOf(sub, k)
    ensures 0 < k < |sub| && sub[..|sub| - k] + sub == sub + sub[k..]
  {
    assert sub == sub[..k] + sub[k..] && sub == sub[..|sub| - k] + sub[|sub| - k..];
  }

  lemma ReplacedAtEnd(prefix: string, t: string, sub: string)
    requires Index(prefix + t, t, 0) == Some(|prefix|)
    ensures ReplaceFirst(prefix + t, t, sub) == prefix + sub
  {
    assert (prefix + t)[..|prefix|] == prefix && (prefix + t)[|prefix| + |t|..] == "";
  }

  /** A string none of whose characters ends the prefix is first found behind it. */
  lemma FoundAfterPrefix(prefix: string, t: string)
    requires 0 < |prefix| < |t| && prefix[|prefix| - 1] !in t
    ensures Index(prefix + t, t, 0) == Some(|prefix|) && Count(prefix + t, t) == 1
  {
    var s, n := prefix + t, |prefix|;
    assert s[n..n + |t|] == t && s[n - 1] == prefix[n - 1];
    assert OccursAt(s, t, n);
    forall j | 0 <= j < n ensures !OccursAt(s, t, j) {
      NotOver(s, t, j, n - 1);
    }
    hide OccursAt;
    assert Index(s, t, n + |t|).None?;
    assert Count(s, t, n + |t|) == 0;
  }

  /** Nothing occurs over a character that it does not have. */
  lemma NotOver(s: string, t: string, j: nat, k: nat)
    requires j <= k < |s| && k < j + |t| && s[k] !in t
    ensures !OccursAt(s, t, j)
  {
    if j + |t| <= |s| {
      assert s[j..j + |t|][k - j] == s[k];
    }
  }

  lemma ReverseEditRestores(s: string, t: string, sub: string)
    requires t != "" && sub != "" && Count(s, t) == 1
    requires Borderless(sub) && Count(ReplaceFirst(s, t, sub), sub) == 1
    ensures EditsBack(s, t, sub)
  {
    var i := Index(s, t, 0).value;
    var r := ReplaceFirst(s, t, sub);
    ReplacementOccurs(s, t, sub, i);
    OnlyOccurrence(r, sub, i);
    ReplaceBack(s, t, sub, i);
  }

  lemma ReplacementOccurs(s: string, t: string, sub: string, i: nat)
    requires OccursAt(s, t, i)
    ensures OccursAt(s[..i] + sub + s[i + |t|..], sub, i)
  {
  }

  lemma OnlyOccurrence(r: string, sub: string, i: nat)
    requires sub != "" && Borderless(sub) && Count(r, sub) == 1 && OccursAt(r, sub, i)
    ensures Index(r, sub, 0) == Some(i)
  {
    hide OccursAt, Borderless;
    var j := Index(r, sub, 0).value;
    assert Index(r, sub, j + |sub|).None?;
    if j < i {
      OverlapIsBorder(r, sub, j, i);
      BordersAreExcluded(sub, j + |sub| - i);
    }
  }

  lemma BordersAreExcluded(t: string, k: nat)
    requires Borderless(t)
    ensures !BorderOf(t, k)
  {
  }

  lemma ReplaceBack(s: string, t: string, sub: string, i: nat)
    requires OccursAt(s, t, i)
    ensures var r := s[..i] + sub + s[i + |t|..];
      r[..i] + t + r[i + |sub|..] == s
  {
    var r := s[..i] + sub + s[i + |t|..];
    assert r[..i] == s[..i] && r[i + |sub|..] == s[i + |t|..];
  }
}
