/**
  Native routes (src/native_router.rs): exact paths and mounted prefixes, validated and
  ordered once, then matched against request paths.

  Liveness, readiness, metrics and single-file routes are exact routes with different
  targets; `fileOk` says whether the file service accepts the route's root and file.
*/
module NativeRouter {
  import opened Bags

  const MAX_NATIVE_ROUTES := 128
  const MAX_ROUTE_PATH_BYTES := 4 * 1024

  datatype Spec = Exact(at: string, target: nat, fileOk: bool) | Prefix(at: string, mount: nat, fileOk: bool)

  datatype Mount = Mount(at: string, mount: nat)

  datatype Router = Router(exact: map<string, nat>, prefixes: seq<Mount>)

  datatype Match = Target(target: nat) | Mounted(mount: nat, relative: string)

  // --------------------------------------------------------------- validation

  predicate BadChar(c: char) { c == '%' || c == '\\' || c == '\0' || c == '?' || c > '\U{7f}' }

  predicate ValidRoutePath(path: string) {
    && path != "" && path[0] == '/' && |path| <= MAX_ROUTE_PATH_BYTES
    && (|path| > 1 ==> path[|path| - 1] != '/')
    && (forall i :: 0 <= i < |path| - 1 ==> !(path[i] == '/' && path[i + 1] == '/'))
    && (forall i :: 0 <= i < |path| ==> !BadChar(path[i]))
    && (forall i :: 0 <= i < |path| - 1 ==> !(path[i] == '/' && path[i + 1] == '.'))
  }

  predicate ValidSpec(s: Spec) { ValidRoutePath(s.at) && s.fileOk }

  function ExactAt(s: Spec): Option<string> { if s.Exact? then Some(s.at) else None }

  function PrefixAt(s: Spec): Option<string> { if s.Prefix? then Some(s.at) else None }

  /** What may be declared: valid paths, and no path twice among the exact routes or
      among the prefixes. */
  ghost predicate Declarable(specs: seq<Spec>) {
    && |specs| <= MAX_NATIVE_ROUTES
    && (forall s :: s in specs ==> ValidSpec(s))
    && (forall at: string :: Tally(specs, ExactAt, at) <= 1 && Tally(specs, PrefixAt, at) <= 1)
  }

  // ----------------------------------------------------------------- ordering

  /** Lexicographic order. */
  predicate LexLe(a: string, b: string) {
    if a == "" then true
    else if b == "" then false
    else a[0] < b[0] || (a[0] == b[0] && LexLe(a[1..], b[1..]))
  }

  /** Longer prefixes first, then in lexicographic order. */
  predicate Before(a: Mount, b: Mount) { |a.at| > |b.at| || (|a.at| == |b.at| && LexLe(a.at, b.at)) }

  lemma {:induction false} LexTotal(a: string, b: string)
    ensures LexLe(a, b) || LexLe(b, a)
    decreases |a|
  {
    if a != "" && b != "" && a[0] == b[0] {
      LexTotal(a[1..], b[1..]);
    }
  }

  lemma {:induction false} LexTransitive(a: string, b: string, c: string)
    requires LexLe(a, b) && LexLe(b, c)
    ensures LexLe(a, c)
    decreases |a|
  {
    if a != "" && b != "" && c != "" && a[0] == b[0] && b[0] == c[0] {
      LexTransitive(a[1..], b[1..], c[1..]);
    }
  }

  lemma BeforeTransitive(a: Mount, b: Mount, c: Mount)
    requires Before(a, b) && Before(b, c)
    ensures Before(a, c)
  {
    if |a.at| == |b.at| == |c.at| {
      LexTransitive(a.at, b.at, c.at);
    }
  }

  predicate Ordered(s: seq<Mount>) { forall i, j :: 0 <= i < j < |s| ==> Before(s[i], s[j]) }

  lemma PlacedInOrder(s: seq<Mount>, m: Mount, i: nat)
    requires Ordered(s) && i <= |s|
    requires forall j :: 0 <= j < i ==> Before(s[j], m)
    requires forall j :: i <= j < |s| ==> Before(m, s[j])
    ensures Ordered(s[..i] + [m] + s[i..])
    ensures multiset(s[..i] + [m] + s[i..]) == multiset(s) + multiset{m}
  {
    var r := s[..i] + [m] + s[i..];
    forall a, b | 0 <= a < b < |r| ensures Before(r[a], r[b]) {
      assert r[a] == if a < i then s[a] else if a == i then m else s[a - 1];
      assert r[b] == if b < i then s[b] else if b == i then m else s[b - 1];
    }
    assert s == s[..i] + s[i..];
    assert multiset(s) == multiset(s[..i]) + multiset(s[i..]);
  }

  /** Put one more prefix where it belongs. */
  method Place(s: seq<Mount>, m: Mount) returns (r: seq<Mount>)
    requires Ordered(s)
    ensures Ordered(r) && multiset(r) == multiset(s) + multiset{m}
  {
    var i := |s|;
    while i > 0 && !Before(s[i - 1], m)
      invariant 0 <= i <= |s|
      invariant forall j :: i <= j < |s| ==> Before(m, s[j])
    {
      LexTotal(s[i - 1].at, m.at);
      i := i - 1;
    }
    forall j | 0 <= j < i ensures Before(s[j], m) {
      if j < i - 1 {
        BeforeTransitive(s[j], s[i - 1], m);
      }
    }
    PlacedInOrder(s, m, i);
    r := s[..i] + [m] + s[i..];
  }

  method SortPrefixes(s: seq<Mount>) returns (r: seq<Mount>)
    ensures Ordered(r) && multiset(r) == multiset(s)
  {
    r := [];
    for i := 0 to |s|
      invariant Ordered(r) && multiset(r) == multiset(s[..i])
    {
      assert s[..i + 1] == s[..i] + [s[i]];
      r := Place(r, s[i]);
    }
    assert s[..|s|] == s;
  }

  // --------------------------------------------------------------- activation

  /** The exact routes among the declarations, and the mounts, in their order. */
  function Exacts(specs: seq<Spec>): map<string, nat> {
    if specs == [] then map[]
    else
      var s, rest := specs[|specs| - 1], Exacts(specs[..|specs| - 1]);
      if s.Exact? then rest[s.at := s.target] else rest
  }

  function Mounts(specs: seq<Spec>): seq<Mount> {
    if specs == [] then []
    else
      var s, rest := specs[|specs| - 1], Mounts(specs[..|specs| - 1]);
      if s.Prefix? then rest + [Mount(s.at, s.mount)] else rest
  }

  lemma {:induction false} ExactsKnow(specs: seq<Spec>, at: string)
    ensures at in Exacts(specs) <==> Tally(specs, ExactAt, at) >= 1
    decreases |specs|
  {
    if specs != [] {
      ExactsKnow(specs[..|specs| - 1], at);
    }
  }

  lemma {:induction false} MountsKnow(specs: seq<Spec>, at: string)
    ensures (exists m :: m in Mounts(specs) && m.at == at) <==> Tally(specs, PrefixAt, at) >= 1
    decreases |specs|
  {
    if specs != [] {
      var front := specs[..|specs| - 1];
      MountsKnow(front, at);
      var s := specs[|specs| - 1];
      if s.Prefix? {
        assert Mount(s.at, s.mount) in Mounts(specs);
        assert forall m :: m in Mounts(specs) <==> m in Mounts(front) || m == Mount(s.at, s.mount);
      }
    }
  }

  /** Declaring one more route: possible exactly if it is valid and new. */
  lemma OneMore(specs: seq<Spec>, s: Spec)
    requires |specs| < MAX_NATIVE_ROUTES
    ensures Declarable(specs + [s]) <==>
      && Declarable(specs) && ValidSpec(s)
      && (s.Exact? ==> s.at !in Exacts(specs))
      && (s.Prefix? ==> forall m :: m in Mounts(specs) ==> m.at != s.at)
  {
    var all := specs + [s];
    ExactsKnow(specs, s.at);
    MountsKnow(specs, s.at);
    forall at: string
      ensures Tally(all, ExactAt, at) == Tally(specs, ExactAt, at) + One(ExactAt(s), at)
      ensures Tally(all, PrefixAt, at) == Tally(specs, PrefixAt, at) + One(PrefixAt(s), at)
    {
      Append(specs, ExactAt, s, at);
      Append(specs, PrefixAt, s, at);
    }
    assert s in all && forall x :: x in specs ==> x in all;
    if Declarable(all) {
      assert Tally(all, ExactAt, s.at) <= 1 && Tally(all, PrefixAt, s.at) <= 1;
      forall at: string ensures Tally(specs, ExactAt, at) <= 1 && Tally(specs, PrefixAt, at) <= 1 {
        assert Tally(all, ExactAt, at) <= 1 && Tally(all, PrefixAt, at) <= 1;
      }
    }
  }

  lemma {:induction false} PrefixDeclarable(specs: seq<Spec>, n: nat)
    requires Declarable(specs) && n <= |specs|
    ensures Declarable(specs[..n])
    decreases |specs| - n
  {
    if n == |specs| {
      assert specs[..n] == specs;
    } else {
      PrefixDeclarable(specs, n + 1);
      assert specs[..n + 1] == specs[..n] + [specs[n]];
      OneMore(specs[..n], specs[n]);
    }
  }

  /** `activate`: succeeds exactly on declarable routes, and keeps all of them. */
  method Activate(specs: seq<Spec>) returns (router: Option<Router>)
    ensures router.Some? <==> Declarable(specs)
    ensures router.Some? ==>
      && router.value.exact == Exacts(specs)
      && Ordered(router.value.prefixes) && multiset(router.value.prefixes) == multiset(Mounts(specs))
  {
    if |specs| > MAX_NATIVE_ROUTES {
      return None;
    }
    var exact: map<string, nat>, mounts: seq<Mount>, paths: set<string> := map[], [], {};
    for i := 0 to |specs|
      invariant Declarable(specs[..i])
      invariant exact == Exacts(specs[..i]) && mounts == Mounts(specs[..i])
      invariant forall at :: at in paths <==> exists m :: m in mounts && m.at == at
    {
      var s := specs[i];
      OneMore(specs[..i], s);
      assert specs[..i + 1] == specs[..i] + [s];
      assert specs[..i + 1][..i] == specs[..i];
      if !ValidSpec(s) || (s.Exact? && s.at in exact) || (s.Prefix? && s.at in paths) {
        if Declarable(specs) {
          PrefixDeclarable(specs, i + 1);
        }
        return None;
      }
      if s.Exact? {
        exact := exact[s.at := s.target];
      } else {
        ghost var before := mounts;
        mounts := mounts + [Mount(s.at, s.mount)];
        paths := paths + {s.at};
        assert Mount(s.at, s.mount) in mounts;
        assert forall m :: m in mounts <==> m in before || m == Mount(s.at, s.mount);
      }
    }
    assert specs[..|specs|] == specs;
    var prefixes := SortPrefixes(mounts);
    router := Some(Router(exact, prefixes));
  }

  // ------------------------------------------------------------------ routing

  /** The path is at the prefix or below it. */
  predicate Matches(at: string, path: string) {
    if at == "/" then path != "" && path[0] == '/'
    else path == at || (|at| < |path| && at <= path && path[|at|] == '/')
  }

  function Relative(at: string, path: string): string
    requires Matches(at, path)
  {
    if at == "/" then path[1..] else if path == at then "" else path[|at| + 1..]
  }

  /** What stands in front of the paths below a mount. */
  function Base(at: string): string { if at == "/" then "" else at }

  /** A path is under a mount with this relative path exactly if it is the mount, a slash and
      that path; or it is the mount itself, other than the root, and the relative path is empty. */
  lemma UnderMount(at: string, path: string, rest: string)
    ensures Matches(at, path) && Relative(at, path) == rest
       <==> path == Base(at) + "/" + rest || (at != "/" && path == at && rest == "")
  {
    if path == Base(at) + "/" + rest {
      assert path[|Base(at)|] == '/' && path[|Base(at)| + 1..] == rest && path[..|Base(at)|] == Base(at);
    }
    if Matches(at, path) && (at == "/" || path != at) {
      assert path == path[..|Base(at)|] + [path[|Base(at)|]] + path[|Base(at)| + 1..];
      assert path[..|Base(at)|] == Base(at);
    }
  }

  predicate Rooted(ms: seq<Mount>) { forall m :: m in ms ==> m.at != "" && m.at[0] == '/' }

  /** `b` is a matching mount, and none is longer. */
  predicate Longest(ms: seq<Mount>, path: string, b: Mount) {
    b in ms && Matches(b.at, path) && forall m :: m in ms && Matches(m.at, path) ==> |m.at| <= |b.at|
  }

  /** The answer for `path`: its exact route, else its longest mount, else none. */
  ghost predicate Answers(exact: map<string, nat>, ms: seq<Mount>, path: string, answer: Option<Match>) {
    if path in exact then answer == Some(Target(exact[path]))
    else if answer.None? then forall m :: m in ms ==> !Matches(m.at, path)
    else exists b :: Longest(ms, path, b) && answer == Some(Mounted(b.mount, Relative(b.at, path)))
  }

  /** `route`: the first match over the ordered prefixes is the longest one. */
  method Route(r: Router, path: string) returns (answer: Option<Match>)
    requires Ordered(r.prefixes) && Rooted(r.prefixes)
    ensures Answers(r.exact, r.prefixes, path, answer)
  {
    if path in r.exact {
      return Some(Target(r.exact[path]));
    }
    for i := 0 to |r.prefixes|
      invariant forall j :: 0 <= j < i ==> !Matches(r.prefixes[j].at, path)
    {
      var m := r.prefixes[i];
      if m.at == "/" && !Matches(m.at, path) {
        NothingUnderRoot(r.prefixes, path);
        return None;
      }
      if Matches(m.at, path) {
        assert Longest(r.prefixes, path, m) by {
          forall c | c in r.prefixes && Matches(c.at, path) ensures |c.at| <= |m.at| {
            var j :| 0 <= j < |r.prefixes| && r.prefixes[j] == c;
            assert j >= i;
            assert j == i || Before(r.prefixes[i], r.prefixes[j]);
          }
        }
        return Some(Mounted(m.mount, Relative(m.at, path)));
      }
    }
    answer := None;
  }

  /** A path without a leading slash is under no mount. */
  lemma NothingUnderRoot(ms: seq<Mount>, path: string)
    requires Rooted(ms) && !Matches("/", path)
    ensures forall m :: m in ms ==> !Matches(m.at, path)
  {
  }

  // ---------------------------------------------------- order of declarations

  lemma {:induction false} MountsExact(specs: seq<Spec>, m: Mount)
    ensures m in Mounts(specs) <==> exists s :: s in specs && s.Prefix? && s.at == m.at && s.mount == m.mount
    decreases |specs|
  {
    if specs != [] {
      var n := |specs| - 1;
      MountsExact(specs[..n], m);
      assert specs == specs[..n] + [specs[n]];
      assert specs[n] in specs;
    }
  }

  lemma {:induction false} ExactsExact(specs: seq<Spec>, at: string, target: nat)
    requires Declarable(specs)
    ensures (at in Exacts(specs) && Exacts(specs)[at] == target)
       <==> exists s :: s in specs && s.Exact? && s.at == at && s.target == target
    decreases |specs|
  {
    if specs != [] {
      var n := |specs| - 1;
      var front, last := specs[..n], specs[n];
      assert specs == front + [last];
      OneMore(front, last);
      ExactsExact(front, at, target);
      ExactsKnow(front, at);
      assert last in specs;
      if last.Exact? && last.at == at {
        forall s | s in front && s.Exact? ensures s.at != at {
          if s.at == at {
            var i :| 0 <= i < |front| && front[i] == s;
            Has(front, ExactAt, i, at);
          }
        }
      }
    }
  }

  lemma MountOnce(specs: seq<Spec>, a: Mount, b: Mount)
    requires Declarable(specs) && a in Mounts(specs) && b in Mounts(specs) && a.at == b.at
    ensures a == b
  {
    MountsExact(specs, a);
    MountsExact(specs, b);
    var s :| s in specs && s.Prefix? && s.at == a.at && s.mount == a.mount;
    var t :| t in specs && t.Prefix? && t.at == b.at && t.mount == b.mount;
    var i :| 0 <= i < |specs| && specs[i] == s;
    var j :| 0 <= j < |specs| && specs[j] == t;
    assert Tally(specs, PrefixAt, a.at) <= 1;
    if i < j {
      Twice(specs, PrefixAt, i, j, a.at);
    } else if j < i {
      Twice(specs, PrefixAt, j, i, a.at);
    }
  }

  /** Two mounts of the same length that match the same path are at the same place. */
  lemma SameLengthSamePlace(a: string, b: string, path: string)
    requires a != "" && b != "" && a[0] == '/' && b[0] == '/'
    requires Matches(a, path) && Matches(b, path) && |a| == |b|
    ensures a == b
  {
    if |a| == 1 {
      assert a == "/" == b;
    } else {
      assert a == path[..|a|] && b == path[..|b|];
    }
  }

  lemma DeclarablePermuted(a: seq<Spec>, b: seq<Spec>)
    requires multiset(a) == multiset(b) && Declarable(a)
    ensures Declarable(b)
  {
    assert |a| == |multiset(a)| == |b|;
    forall s | s in b ensures ValidSpec(s) {
      SameElements(a, b, s);
    }
    forall at: string ensures Tally(b, ExactAt, at) <= 1 && Tally(b, PrefixAt, at) <= 1 {
      assert Tally(a, ExactAt, at) <= 1 && Tally(a, PrefixAt, at) <= 1;
      TallyPermuted(a, b, ExactAt, at);
      TallyPermuted(a, b, PrefixAt, at);
    }
  }

  lemma MountsPermuted(a: seq<Spec>, b: seq<Spec>, m: Mount)
    requires multiset(a) == multiset(b)
    ensures m in Mounts(a) <==> m in Mounts(b)
  {
    MountsExact(a, m);
    MountsExact(b, m);
    forall s ensures s in a <==> s in b {
      SameElements(a, b, s);
    }
  }

  lemma ExactsPermuted(a: seq<Spec>, b: seq<Spec>, at: string, target: nat)
    requires multiset(a) == multiset(b) && Declarable(a) && Declarable(b)
    ensures (at in Exacts(a) && Exacts(a)[at] == target) <==> (at in Exacts(b) && Exacts(b)[at] == target)
  {
    ExactsExact(a, at, target);
    ExactsExact(b, at, target);
    forall s ensures s in a <==> s in b {
      SameElements(a, b, s);
    }
  }

  lemma MountsAreRooted(specs: seq<Spec>)
    requires Declarable(specs)
    ensures Rooted(Mounts(specs))
  {
    forall m | m in Mounts(specs) ensures m.at != "" && m.at[0] == '/' {
      MountsExact(specs, m);
    }
  }

  /** What the routes answer does not depend on the order in which they are declared. */
  lemma DeclarationOrderDoesNotMatter(a: seq<Spec>, b: seq<Spec>, path: string, x: Option<Match>, y: Option<Match>)
    requires multiset(a) == multiset(b) && Declarable(a)
    requires Answers(Exacts(a), Mounts(a), path, x) && Answers(Exacts(b), Mounts(b), path, y)
    ensures x == y
  {
    DeclarablePermuted(a, b);
    if path in Exacts(a) {
      ExactsPermuted(a, b, path, Exacts(a)[path]);
    } else if path in Exacts(b) {
      ExactsPermuted(a, b, path, Exacts(b)[path]);
    } else {
      forall m ensures m in Mounts(a) <==> m in Mounts(b) {
        MountsPermuted(a, b, m);
      }
      if x.Some? && y.Some? {
        var c :| Longest(Mounts(a), path, c) && x == Some(Mounted(c.mount, Relative(c.at, path)));
        var d :| Longest(Mounts(b), path, d) && y == Some(Mounted(d.mount, Relative(d.at, path)));
        MountsAreRooted(a);
        SameLengthSamePlace(c.at, d.at, path);
        MountOnce(a, c, d);
      }
    }
  }

  /** Routing over the activated routes answers from the declarations. */
  method RouteDeclared(specs: seq<Spec>, path: string) returns (answer: Option<Match>)
    requires Declarable(specs)
    ensures Answers(Exacts(specs), Mounts(specs), path, answer)
  {
    var router := Activate(specs);
    var r := router.value;
    forall m ensures m in r.prefixes <==> m in Mounts(specs) {
      SameElements(r.prefixes, Mounts(specs), m);
    }
    MountsAreRooted(specs);
    answer := Route(r, path);
    if path !in r.exact && answer.Some? {
      var b :| Longest(r.prefixes, path, b) && answer == Some(Mounted(b.mount, Relative(b.at, path)));
      assert Longest(Mounts(specs), path, b);
    }
  }
}
