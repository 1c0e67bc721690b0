/**
 Path containment (sandbox/lib/cwd-policy.ts, `canonicalizeDeepest` and `isPathWithinCwd`).

 A path is the sequence of its components from the root; empty components, from doubled or trailing
 slashes, are ignored. `realpath` resolves what exists and answers `None` for the rest.
*/
module PathPolicy {
  import opened JsText
  import opened Wrappers

  type Path = seq<string>
  datatype Env = Env(realpath: Path -> Option<Path>, home: Path)

  const MAX_DEPTH := 256

  // ---- Text ----------------------------------------------------------------------------------

  /** A component as a path holds it. */
  predicate IsName(c: string) { c != "" && '/' !in c }
  ghost predicate Names(p: Path) { forall c :: c in p ==> IsName(c) }

  function Components(text: string): (p: Path)
    ensures Names(p)
    decreases |text|
  {
    var i := IndexOf(text, '/');
    if i < 0 then (if text == "" then [] else [text])
    else (if i == 0 then [] else [text[..i]]) + Components(text[i + 1..])
  }

  /** Every component after a slash. */
  function Body(p: Path): string { if p == [] then "" else "/" + p[0] + Body(p[1..]) }

  function Render(p: Path): string { if p == [] then "/" else Body(p) }

  /** `within`, on the text of two resolved paths. */
  predicate Within(target: string, root: string) {
    target == root || (if root != "" && root[|root| - 1] == '/' then root else root + "/") <= target
  }

  // ---- Joining -------------------------------------------------------------------------------

  /** What `join` makes of the components after it: no ".", and each ".." takes one off, but not the root. */
  function Normal(done: Path, rest: Path): Path
    decreases |rest|
  {
    if rest == [] then done
    else if rest[0] == "." then Normal(done, rest[1..])
    else if rest[0] == ".." then Normal(if done == [] then [] else done[..|done| - 1], rest[1..])
    else Normal(done + [rest[0]], rest[1..])
  }

  function NoDots(p: Path): Path {
    if p == [] then [] else (if p[0] == "." then [] else [p[0]]) + NoDots(p[1..])
  }

  /** The absolute path a tool argument names in a session at `cwd`. */
  function Absolute(env: Env, cwd: Path, target: string): Path {
    if target == "~" || "~/" <= target then Normal([], env.home + Components(target[1..]))
    else if "/" <= target then Components(target)
    else Normal([], cwd + Components(target))
  }

  // ---- The check -----------------------------------------------------------------------------

  /** How many leading components the deepest existing ancestor has. */
  function Deepest(env: Env, p: Path): (k: Option<nat>)
    ensures k.Some? ==> k.value <= |p| && env.realpath(p[..k.value]).Some?
    ensures k.Some? ==> forall j :: k.value < j <= |p| ==> env.realpath(p[..j]).None?
    ensures k.None? ==> forall j :: 0 <= j <= |p| ==> env.realpath(p[..j]).None?
    decreases |p|
  {
    if env.realpath(p).Some? then
      assert p[..|p|] == p;
      Some(|p|)
    else if p == [] then None
    else
      var init := p[..|p| - 1];
      assert forall j :: 0 <= j <= |init| ==> init[..j] == p[..j];
      assert p[..|p|] == p;
      Deepest(env, init)
  }

  /** The real path of the deepest existing ancestor, and the missing tail on it. */
  function Resolved(env: Env, p: Path): Option<Path> {
    var k := Deepest(env, p);
    if k.None? || |p| - k.value >= MAX_DEPTH || ".." in p[k.value..] then None
    else Some(env.realpath(p[..k.value]).value + NoDots(p[k.value..]))
  }

  predicate IsWithinCwd(env: Env, cwd: string, target: string) {
    && target != "" && '\0' !in target && cwd != ""
    && var resolved := Resolved(env, Absolute(env, Components(cwd), target));
    var realCwd := env.realpath(Components(cwd));
    resolved.Some? && realCwd.Some? && Within(Render(resolved.value), Render(realCwd.value))
  }

  /** The resolver answers with names. */
  ghost predicate Sound(env: Env) { forall p :: env.realpath(p).Some? ==> Names(env.realpath(p).value) }

  // ---- Segment boundaries --------------------------------------------------------------------

  lemma BodyStarts(p: Path)
    ensures Body(p) + "/" != "" && (Body(p) + "/")[0] == '/'
  {
  }

  lemma NoSlashBefore(c: string, x: string)
    requires IsName(c)
    ensures forall i :: 0 <= i < |c| ==> (c + x)[i] != '/'
  {
    forall i | 0 <= i < |c| ensures (c + x)[i] != '/' { assert c[i] in c; }
  }

  /** Up to the next slash, the texts of two paths agree only when the first names do. */
  lemma FirstNames(c: string, d: string, x: string, y: string)
    requires IsName(c) && IsName(d) && x != "" && x[0] == '/' && y != "" && y[0] == '/'
    ensures c + x <= d + y <==> c == d && x <= y
  {
    if c + x <= d + y {
      NoSlashBefore(c, x);
      NoSlashBefore(d, y);
      assert (c + x)[|c|] == '/' && (d + y)[|d|] == '/';
      assert |c| == |d|;
      assert c == (c + x)[..|c|] && d == (d + y)[..|d|];
      assert x == (c + x)[|c|..] && y == (d + y)[|d|..];
    }
  }

  lemma {:induction false} BodyPrefix(r: Path, t: Path)
    requires Names(r) && Names(t)
    ensures Body(r) + "/" <= Body(t) + "/" <==> r <= t
    decreases |r|
  {
    if r == [] {
      BodyStarts(t);
    } else if t == [] {
      assert r[0] in r && |r[0]| > 0;
      assert Body(t) + "/" == "/";
    } else {
      assert r[0] in r && t[0] in t;
      BodyPrefix(r[1..], t[1..]);
      BodyStarts(r[1..]);
      BodyStarts(t[1..]);
      BodyCons(r);
      BodyCons(t);
      ConsPrefix(r, t);
      hide Body, IsName;
      var x, y := Body(r[1..]) + "/", Body(t[1..]) + "/";
      FirstNames(r[0], t[0], x, y);
      SlashedPrefix(r[0] + x, t[0] + y);
    }
  }

  lemma BodyCons(p: Path)
    requires p != []
    ensures Body(p) + "/" == "/" + (p[0] + (Body(p[1..]) + "/"))
  {
  }

  lemma SlashedPrefix(a: string, b: string)
    ensures "/" + a <= "/" + b <==> a <= b
  {
    assert ("/" + a)[1..] == a && ("/" + b)[1..] == b;
  }

  lemma ConsPrefix(r: Path, t: Path)
    requires r != [] && t != []
    ensures r <= t <==> r[0] == t[0] && r[1..] <= t[1..]
  {
    assert r == [r[0]] + r[1..] && t == [t[0]] + t[1..];
  }

  lemma {:induction false} BodyEnds(p: Path)
    requires Names(p) && p != []
    ensures Body(p) != "" && Body(p)[|Body(p)| - 1] != '/'
    decreases |p|
  {
    assert p[0] in p;
    if |p| == 1 {
      assert Body(p[1..]) == "";
      assert Body(p) == "/" + p[0] && p[0][|p[0]| - 1] in p[0];
    } else {
      BodyEnds(p[1..]);
    }
  }

  lemma BelowRoot(t: Path)
    ensures Within(Render(t), "/")
  {
    BodyStarts(t);
    if t != [] { assert Body(t)[0] == '/'; }
  }

  /** Between two paths that are not the root. */
  lemma WithinBodies(t: Path, r: Path)
    requires Names(t) && Names(r) && r != [] && t != []
    ensures Within(Body(t), Body(r)) <==> r <= t
  {
    BodyPrefix(r, t);
    BodyEnds(r);
    BodyEnds(t);
    hide Body, Names;
    PrefixOrEqual(Body(r), Body(t));
  }

  lemma RootIsNotBelow(r: Path)
    requires Names(r) && r != []
    ensures !Within("/", Body(r))
  {
    assert r[0] in r && |Body(r)| > 1;
    BodyEnds(r);
  }

  /** The string test of `within` is the test on components: nothing like "/work-2" lies in "/work". */
  lemma WithinIsPrefix(t: Path, r: Path)
    requires Names(t) && Names(r)
    ensures Within(Render(t), Render(r)) <==> r <= t
  {
    hide Body, Within, Names;
    if r == [] { BelowRoot(t); } else if t == [] { RootIsNotBelow(r); } else { WithinBodies(t, r); }
  }

  lemma PrefixOrEqual(b: string, c: string)
    requires c != "" && c[|c| - 1] != '/'
    ensures b + "/" <= c + "/" <==> b == c || b + "/" <= c
  {
    if b + "/" <= c + "/" {
      if |b| == |c| {
        assert b == (b + "/")[..|b|] == (c + "/")[..|b|] == c;
      } else {
        assert b + "/" == (c + "/")[..|b| + 1] == c[..|b| + 1];
      }
    }
    if b + "/" <= c { assert b + "/" == c[..|b| + 1] == (c + "/")[..|b| + 1]; }
  }

  // ---- Joined paths --------------------------------------------------------------------------

  /** `join` leaves no "." and no "..", and only names it was given. */
  lemma {:induction false} NormalIsPlain(done: Path, rest: Path)
    requires forall c :: c in done ==> c != "." && c != ".."
    ensures forall c :: c in Normal(done, rest) ==> c != "." && c != ".." && (c in done || c in rest)
    decreases |rest|
  {
    if rest != [] {
      var next := if rest[0] == "." then done
                  else if rest[0] == ".." then (if done == [] then [] else done[..|done| - 1])
                  else done + [rest[0]];
      assert forall c :: c in next ==> c in done || (c == rest[0] && c != "." && c != "..");
      NormalIsPlain(next, rest[1..]);
      assert Normal(done, rest) == Normal(next, rest[1..]);
    }
  }

  lemma {:induction false} NoDotsNames(p: Path)
    ensures forall c :: c in NoDots(p) <==> c in p && c != "."
    decreases |p|
  {
    if p != [] {
      NoDotsNames(p[1..]);
      assert p == [p[0]] + p[1..];
    }
  }

  lemma AbsoluteNames(env: Env, cwd: Path, target: string)
    requires Names(cwd) && Names(env.home)
    ensures Names(Absolute(env, cwd, target))
  {
    if target == "~" || "~/" <= target { NormalIsPlain([], env.home + Components(target[1..])); }
    else { NormalIsPlain([], cwd + Components(target)); }
  }

  lemma ResolvedNames(env: Env, p: Path)
    requires Sound(env) && Names(p) && Resolved(env, p).Some?
    ensures Names(Resolved(env, p).value)
  {
    var k := Deepest(env, p).value;
    NoDotsNames(p[k..]);
  }

  // ---- Which path a target names -------------------------------------------------------------

  /** One component further: nothing and "." stay, ".." goes up but not above the root. */
  ghost function Stepped(at: Path, c: string): Path {
    if c == "" || c == "." then at
    else if c == ".." then (if |at| == 0 then at else at[..|at| - 1])
    else at + [c]
  }

  ghost predicate Plain(p: Path) { Names(p) && "." !in p && ".." !in p }

  lemma FirstSlash(text: string, i: nat)
    requires i < |text| && text[i] == '/' && forall k :: 0 <= k < i ==> text[k] != '/'
    ensures IndexOf(text, '/') == i
  {
    hide IndexOf;
    var j := IndexOf(text, '/');
    assert 0 <= j <= i && text[j] == '/';
  }

  lemma ComponentsUnfold(text: string)
    requires IndexOf(text, '/') >= 0
    ensures var i := IndexOf(text, '/');
            Components(text) == (if i == 0 then [] else [text[..i]]) + Components(text[i + 1..])
  {
    hide IndexOf, IsName, Names;
  }

  /** `i` is the place of the first slash. */
  lemma ComponentsCut(text: string, i: nat)
    requires i < |text| && text[i] == '/' && forall k :: 0 <= k < i ==> text[k] != '/'
    ensures Components(text) == (if i == 0 then [] else [text[..i]]) + Components(text[i + 1..])
  {
    hide *;
    FirstSlash(text, i);
    ComponentsUnfold(text);
  }

  lemma {:induction false} ComponentsSnoc(text: string, c: string)
    requires '/' !in c
    ensures Components(text + "/" + c) == Components(text) + if c == "" then [] else [c]
    decreases |text|
  {
    hide Components, IndexOf;
    var whole := text + "/" + c;
    var i := IndexOf(text, '/');
    if i < 0 {
      ComponentsCut(whole, |text|);
      assert whole[..|text|] == text && whole[|text| + 1..] == c;
      assert '/' !in text;
      OneComponent(c);
      OneComponent(text);
    } else {
      ComponentsCut(whole, i);
      ComponentsCut(text, i);
      assert whole[..i] == text[..i] && whole[i + 1..] == text[i + 1..] + "/" + c;
      ComponentsSnoc(text[i + 1..], c);
    }
  }

  lemma OneComponent(c: string)
    requires '/' !in c
    ensures Components(c) == if c == "" then [] else [c]
  {
  }

  lemma {:induction false} NormalSnoc(done: Path, rest: Path, c: string)
    requires c != ""
    ensures Normal(done, rest + [c]) == Stepped(Normal(done, rest), c)
    decreases |rest|
  {
    if rest == [] {
      assert [] + [c] == [c];
      assert [c][1..] == [];
    } else {
      assert (rest + [c])[1..] == rest[1..] + [c];
      var next := if rest[0] == "." then done
                  else if rest[0] == ".." then (if done == [] then [] else done[..|done| - 1])
                  else done + [rest[0]];
      NormalSnoc(next, rest[1..], c);
      assert Normal(done, rest) == Normal(next, rest[1..]);
    }
  }

  lemma {:induction false} PlainIsNormal(done: Path, rest: Path)
    requires Plain(rest)
    ensures Normal(done, rest) == done + rest
    decreases |rest|
  {
    if rest != [] {
      assert rest[0] in rest && forall c :: c in rest[1..] ==> c in rest;
      PlainIsNormal(done + [rest[0]], rest[1..]);
      assert done + [rest[0]] + rest[1..] == done + rest;
    } else {
      assert done + rest == done;
    }
  }

  /** Joining `text` and one more component below `base`. */
  lemma JoinSnoc(base: Path, text: string, c: string)
    requires '/' !in c
    ensures Normal([], base + Components(text + "/" + c)) == Stepped(Normal([], base + Components(text)), c)
  {
    ComponentsSnoc(text, c);
    if c == "" {
      assert Components(text) + [] == Components(text);
    } else {
      assert base + (Components(text) + [c]) == (base + Components(text)) + [c];
      NormalSnoc([], base + Components(text), c);
    }
  }

  /**
   Which path a target names, one component at a time: "~" is the home directory, "." the session's, and
   "/" the root. A component behind a slash leads one step on from there, except in a target that starts
   at the root, whose components all stay for the resolver; a single component starts from the session's
   directory. Home and session directories are taken as they are when they are plain.
   */
  lemma TargetsStepByStep(env: Env, cwd: Path, target: string, c: string)
    requires '/' !in c
    ensures target != "" && target[0] != '/' ==>
              Absolute(env, cwd, target + "/" + c) == Stepped(Absolute(env, cwd, target), c)
    ensures target != "" && target[0] == '/' ==>
              Absolute(env, cwd, target + "/" + c) == Absolute(env, cwd, target) + if c == "" then [] else [c]
    ensures c != "" && c != "~" ==> Absolute(env, cwd, c) == Stepped(Absolute(env, cwd, "."), c)
    ensures Absolute(env, cwd, "/" + c) == if c == "" then [] else [c]
    ensures Plain(env.home) ==> Absolute(env, cwd, "~") == env.home
    ensures Plain(cwd) ==> Absolute(env, cwd, ".") == cwd
  {
    hide Absolute, Stepped, Plain;
    HomeAndHere(env, cwd, c);
    if target != "" {
      if target == "~" || "~/" <= target {
        BelowHome(env, cwd, target, c);
      } else if target[0] == '/' {
        BelowRootStep(env, cwd, target, c);
      } else {
        BelowCwd(env, cwd, target, c);
      }
    }
    BelowRootStep(env, cwd, "/", c);
  }

  lemma TildeSlash(text: string)
    ensures "~/" <= text <==> |text| > 1 && text[0] == '~' && text[1] == '/'
    ensures "/" <= text <==> text != "" && text[0] == '/'
  {
    if |text| > 1 && text[0] == '~' && text[1] == '/' { assert text[..2] == "~/"; }
  }

  lemma BelowHome(env: Env, cwd: Path, target: string, c: string)
    requires '/' !in c && (target == "~" || "~/" <= target)
    ensures Absolute(env, cwd, target + "/" + c) == Stepped(Absolute(env, cwd, target), c)
  {
    hide Normal, Components;
    var longer := target + "/" + c;
    JoinSnoc(env.home, target[1..], c);
    assert longer[1..] == target[1..] + "/" + c && "~/" <= longer;
  }

  lemma BelowCwd(env: Env, cwd: Path, target: string, c: string)
    requires '/' !in c && target != "" && target != "~" && !("~/" <= target) && target[0] != '/'
    ensures Absolute(env, cwd, target + "/" + c) == Stepped(Absolute(env, cwd, target), c)
  {
    hide Normal, Components;
    var longer := target + "/" + c;
    assert longer[0] == target[0] && longer[1] == if |target| > 1 then target[1] else '/';
    TildeSlash(target);
    TildeSlash(longer);
    assert |target| == 1 ==> target == [target[0]];
    JoinSnoc(cwd, target, c);
  }

  lemma BelowRootStep(env: Env, cwd: Path, target: string, c: string)
    requires '/' !in c && target != "" && target[0] == '/'
    ensures Absolute(env, cwd, target + "/" + c) == Absolute(env, cwd, target) + if c == "" then [] else [c]
    ensures Absolute(env, cwd, "/" + c) == if c == "" then [] else [c]
  {
    hide Normal, Components;
    var longer := target + "/" + c;
    assert longer[0] == '/' && !("~/" <= longer) && !("~/" <= target);
    ComponentsSnoc(target, c);
    ComponentsSnoc("", c);
    OneComponent("");
    assert "" + "/" + c == "/" + c;
    assert !("~/" <= "/" + c) by { assert ("/" + c)[0] == '/'; }
  }

  lemma HomeAndHere(env: Env, cwd: Path, c: string)
    requires '/' !in c
    ensures c != "" && c != "~" ==> Absolute(env, cwd, c) == Stepped(Absolute(env, cwd, "."), c)
    ensures Plain(env.home) ==> Absolute(env, cwd, "~") == env.home
    ensures Plain(cwd) ==> Absolute(env, cwd, ".") == cwd
  {
    OneComponent(c);
    OneComponent(".");
    OneComponent("");
    assert "~"[1..] == "" && env.home + [] == env.home;
    NormalSnoc([], cwd, ".");
    assert Absolute(env, cwd, ".") == Normal([], cwd);
    if c != "" && c != "~" {
      NormalSnoc([], cwd, c);
      TildeSlash(c);
    }
    if Plain(env.home) { PlainIsNormal([], env.home); assert [] + env.home == env.home; }
    if Plain(cwd) { PlainIsNormal([], cwd); assert [] + cwd == cwd; }
  }

  // ---- The theorems --------------------------------------------------------------------------

  /**
   Exactly which targets are accepted: some ancestor of the target exists, fewer than 256 components
   above it; the missing tail has no ".."; and the real path of the deepest existing ancestor, with
   that tail, is the real cwd or lies below it, component by component.
   */
  lemma AcceptedExactly(env: Env, cwd: string, target: string)
    requires Sound(env) && Names(env.home) && target != "" && '\0' !in target && cwd != ""
    ensures var p := Absolute(env, Components(cwd), target);
            var k := Deepest(env, p);
            var realCwd := env.realpath(Components(cwd));
            IsWithinCwd(env, cwd, target) <==>
              && k.Some? && |p| - k.value < 256 && ".." !in p[k.value..]
              && realCwd.Some? && realCwd.value <= env.realpath(p[..k.value]).value + NoDots(p[k.value..])
  {
    AbsoluteNames(env, Components(cwd), target);
    var p := Absolute(env, Components(cwd), target);
    var resolved, realCwd := Resolved(env, p), env.realpath(Components(cwd));
    if resolved.Some? && realCwd.Some? {
      ResolvedNames(env, p);
      WithinIsPrefix(resolved.value, realCwd.value);
    }
    hide Absolute, Render, Within;
  }

  /** A target that exists is accepted exactly when its real path is the real cwd or below it. */
  lemma ExistingTarget(env: Env, cwd: string, target: string)
    requires Sound(env) && Names(env.home) && target != "" && '\0' !in target && cwd != ""
    requires env.realpath(Absolute(env, Components(cwd), target)).Some?
    ensures var p := Absolute(env, Components(cwd), target);
            var realCwd := env.realpath(Components(cwd));
            IsWithinCwd(env, cwd, target) <==> realCwd.Some? && realCwd.value <= env.realpath(p).value
  {
    AcceptedExactly(env, cwd, target);
    var p := Absolute(env, Components(cwd), target);
    assert p[..|p|] == p && p[|p|..] == [];
    hide Absolute, IsWithinCwd;
  }

  /** A relative target, or one below "~", never fails for its "..": joining has taken them out. */
  lemma RelativeTailHasNoDotDot(env: Env, cwd: string, target: string)
    requires !("/" <= target)
    ensures var p := Absolute(env, Components(cwd), target); forall k: nat :: k <= |p| ==> ".." !in p[k..]
  {
    NormalIsPlain([], env.home + Components(if target == "" then "" else target[1..]));
    NormalIsPlain([], Components(cwd) + Components(target));
    assert target == "~" || "~/" <= target ==> target != "";
    var p := Absolute(env, Components(cwd), target);
    assert ".." !in p;
    hide Absolute, Normal;
    forall k: nat, c | k <= |p| && c in p[k..] ensures c in p {
      var i :| 0 <= i < |p[k..]| && p[k..][i] == c;
      assert p[k + i] == c;
    }
  }

  /** `after` is the file system once the missing tail of `p` beyond `k` was made, with plain names. */
  ghost predicate MadePlainly(before: Env, after: Env, p: Path, k: nat)
    requires k <= |p|
  {
    && after.realpath(p[..k]) == before.realpath(p[..k])
    && forall j :: k <= j < |p| && after.realpath(p[..j]).Some? ==>
         after.realpath(p[..j + 1]) == Some(after.realpath(p[..j]).value + NoDots([p[j]]))
  }

  lemma {:induction false} PlainTail(before: Env, after: Env, p: Path, k: nat, n: nat)
    requires k <= n <= |p| && before.realpath(p[..k]).Some? && MadePlainly(before, after, p, k)
    ensures after.realpath(p[..n]) == Some(before.realpath(p[..k]).value + NoDots(p[k..n]))
    decreases n
  {
    if n > k {
      PlainTail(before, after, p, k, n - 1);
      assert p[k..n] == p[k..n - 1] + [p[n - 1]];
      NoDotsAppend(p[k..n - 1], [p[n - 1]]);
      assert p[..(n - 1) + 1] == p[..n];
      var at := before.realpath(p[..k]).value;
      assert at + NoDots(p[k..n - 1]) + NoDots([p[n - 1]]) == at + (NoDots(p[k..n - 1]) + NoDots([p[n - 1]]));
    } else {
      assert p[k..n] == [];
      assert before.realpath(p[..k]).value + [] == before.realpath(p[..k]).value;
    }
  }

  lemma {:induction false} NoDotsAppend(a: Path, b: Path)
    ensures NoDots(a + b) == NoDots(a) + NoDots(b)
    decreases |a|
  {
    if a == [] {
      assert a + b == b;
    } else {
      assert (a + b)[1..] == a[1..] + b;
      NoDotsAppend(a[1..], b);
    }
  }

  /**
   What the check is for: once an accepted target that did not exist yet is made, its real path is
   the real cwd or lies below it.
   */
  lemma AcceptedThenMadeIsInside(before: Env, after: Env, cwd: string, target: string)
    requires Sound(before) && Names(before.home) && IsWithinCwd(before, cwd, target)
    requires var p := Absolute(before, Components(cwd), target);
             MadePlainly(before, after, p, Deepest(before, p).value)
    ensures var p := Absolute(before, Components(cwd), target);
            && after.realpath(p).Some? && before.realpath(Components(cwd)).Some?
            && before.realpath(Components(cwd)).value <= after.realpath(p).value
  {
    AcceptedExactly(before, cwd, target);
    var p := Absolute(before, Components(cwd), target);
    var k := Deepest(before, p).value;
    PlainTail(before, after, p, k, |p|);
    assert p[..|p|] == p && p[k..|p|] == p[k..];
  }

  // ---- The loop ------------------------------------------------------------------------------

  lemma DeepestIs(env: Env, p: Path, k: nat)
    requires k <= |p| && env.realpath(p[..k]).Some? && forall j :: k < j <= |p| ==> env.realpath(p[..j]).None?
    ensures Deepest(env, p) == Some(k)
  {
  }

  function Reversed(p: Path): Path { if p == [] then [] else Reversed(p[1..]) + [p[0]] }

  /** Upward, one component at a time, remembering what did not exist. */
  method CanonicalizeDeepest(env: Env, abs: Path) returns (result: Option<Path>)
    ensures result == Resolved(env, abs)
  {
    var cur, tail := abs, [];
    var depth := 0;
    while depth < MAX_DEPTH
      invariant 0 <= depth <= MAX_DEPTH && |cur| == |abs| - depth && |tail| == depth
      invariant cur == abs[..|cur|] && Reversed(tail) == abs[|cur|..]
      invariant forall j :: |cur| < j <= |abs| ==> env.realpath(abs[..j]).None?
    {
      var found := env.realpath(cur);
      if found.Some? {
        DeepestIs(env, abs, |cur|);
        assert tail == [] ==> found.value + [] == found.value;
        ReversedIn(tail, "..");
        if ".." in tail { return None; }
        return Some(if |tail| > 0 then found.value + NoDots(Reversed(tail)) else found.value);
      }
      if cur == [] {
        assert abs[..0] == [];
        return None;
      }
      var name := cur[|cur| - 1];
      assert Reversed(tail + [name]) == [name] + Reversed(tail) by { ReversedSnoc(tail, name); }
      assert abs[|cur| - 1..] == [name] + abs[|cur|..];
      tail := tail + [name];
      cur := cur[..|cur| - 1];
      depth := depth + 1;
    }
    return None;
  }

  lemma {:induction false} ReversedSnoc(p: Path, c: string)
    ensures Reversed(p + [c]) == [c] + Reversed(p)
    decreases |p|
  {
    if p == [] {
      assert p + [c] == [c];
    } else {
      assert (p + [c])[1..] == p[1..] + [c];
      ReversedSnoc(p[1..], c);
    }
  }

  lemma {:induction false} ReversedIn(p: Path, c: string)
    ensures c in Reversed(p) <==> c in p
    decreases |p|
  {
    if p != [] {
      ReversedIn(p[1..], c);
      assert p == [p[0]] + p[1..];
    }
  }
}
