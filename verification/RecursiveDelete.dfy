module RecursiveDelete {
  import opened Types
  import opened FileTree

  type Frame = (Path, bool)

  // What the clean-up has done to the tree: it only removed nodes, all below `root`.
  ghost predicate Shrunk(t0: Tree, t: Tree, root: Path) {
    && Valid(t) && t.Keys <= t0.Keys && (forall p | p in t :: t[p] == t0[p])
    && (forall p | p in t0 && !(root <= p) :: p in t)
  }

  ghost predicate StackOk(t: Tree, root: Path, stack: seq<Frame>) {
    && (root in t ==> |stack| > 0 && stack[0].0 == root)
    && (forall i | 0 <= i < |stack| :: root <= stack[i].0 && stack[i].0 in t && t[stack[i].0] == Dir)
    && (forall i, j | 0 <= i < j < |stack| :: stack[i].0 != stack[j].0)
  }

  // What is left in an opened directory is waiting above it.
  ghost predicate Covered(t: Tree, stack: seq<Frame>) {
    forall i, c | 0 <= i < |stack| && stack[i].1 && c in t && IsChild(c, stack[i].0) :: Waiting(stack, i, c)
  }

  // Nothing below an unopened directory is on the stack.
  ghost predicate Untouched(stack: seq<Frame>) {
    forall i, j | 0 <= i < |stack| && !stack[i].1 && 0 <= j < |stack| && stack[i].0 <= stack[j].0 :: i == j
  }

  // The state between two turns of the outer loop. `t0` is the tree before the clean-up.
  ghost predicate Progress(t0: Tree, t: Tree, root: Path, stack: seq<Frame>) {
    Shrunk(t0, t, root) && StackOk(t, root, stack) && Covered(t, stack) && Untouched(stack)
  }

  ghost predicate Waiting(stack: seq<Frame>, i: nat, c: Path) {
    exists j :: i < j < |stack| && stack[j].0 == c
  }

  // One pass over the entries of a directory: directories are stacked, the rest is unlinked.
  function Stacked(t: Tree, entries: seq<Path>): seq<Frame> {
    if entries == [] then []
    else
      var e := entries[|entries| - 1];
      Stacked(t, entries[..|entries| - 1]) + (if e in t && t[e] == Dir then [(e, false)] else [])
  }

  function Unlinked(t: Tree, entries: seq<Path>): set<Path> {
    set e | e in entries && e in t && t[e] != Dir
  }

  lemma {:induction false} StackedIs(t: Tree, entries: seq<Path>)
    requires forall i, j | 0 <= i < j < |entries| :: entries[i] != entries[j]
    ensures forall e :: (exists k :: 0 <= k < |Stacked(t, entries)| && Stacked(t, entries)[k].0 == e)
                        <==> e in entries && e in t && t[e] == Dir
    ensures forall k | 0 <= k < |Stacked(t, entries)| :: !Stacked(t, entries)[k].1 && Stacked(t, entries)[k].0 in entries
              && Stacked(t, entries)[k].0 in t && t[Stacked(t, entries)[k].0] == Dir
    ensures forall i, j | 0 <= i < j < |Stacked(t, entries)| :: Stacked(t, entries)[i].0 != Stacked(t, entries)[j].0
  {
    if entries != [] {
      var n := |entries| - 1;
      var front := entries[..n];
      StackedIs(t, front);
      var a, b := Stacked(t, front), Stacked(t, entries);
      assert entries[n] !in front;
      forall e ensures (exists k :: 0 <= k < |b| && b[k].0 == e) <==> e in entries && e in t && t[e] == Dir {
        if k :| 0 <= k < |a| && a[k].0 == e { assert b[k].0 == e; assert e in front; }
        if e in entries && e in t && t[e] == Dir {
          if e == entries[n] { assert b[|a|].0 == e; } else { assert e in front; }
        }
      }
    }
  }

  // Popping an opened directory: it is empty, and dropping it keeps the invariant.
  lemma PoppedIsEmpty(t: Tree, stack: seq<Frame>, c: Path)
    requires Covered(t, stack) && stack != [] && stack[|stack| - 1].1 && c in t
    ensures !IsChild(c, stack[|stack| - 1].0)
  {}

  lemma DropKeepsCovered(t: Tree, stack: seq<Frame>)
    requires Covered(t, stack) && stack != []
    ensures Covered(t - {stack[|stack| - 1].0}, stack[..|stack| - 1])
  {
    var n := |stack| - 1;
    var d, rest := stack[n].0, stack[..n];
    forall i, c | 0 <= i < |rest| && rest[i].1 && c in t - {d} && IsChild(c, rest[i].0) ensures Waiting(rest, i, c) {
      assert Waiting(stack, i, c);
      var j :| i < j < |stack| && stack[j].0 == c;
      assert rest[j].0 == c;
    }
  }

  lemma DropKeeps(t0: Tree, t: Tree, root: Path, stack: seq<Frame>)
    requires Progress(t0, t, root, stack) && stack != [] && stack[|stack| - 1].1 && root != []
    ensures Progress(t0, t - {stack[|stack| - 1].0}, root, stack[..|stack| - 1])
  {
    DropKeepsCovered(t, stack);
    hide Covered;
    var d := stack[|stack| - 1].0;
    var t' := t - {d};
    assert Shrunk(t0, t', root) by {
      forall p | p in t' && p != [] ensures Parent(p) in t' {
        PoppedIsEmpty(t, stack, p);
        assert !IsChild(p, d);
      }
    }
  }

  // Opening a directory: its subdirectories are stacked above it, its other entries are gone.
  lemma OpenKeepsShrunk(t0: Tree, t: Tree, root: Path, d: Path, entries: seq<Path>)
    requires Shrunk(t0, t, root) && root <= d && d in t && t[d] == Dir
    requires forall e | e in entries :: IsChild(e, d)
    ensures Shrunk(t0, t - Unlinked(t, entries), root)
  {
    var t' := t - Unlinked(t, entries);
    forall e | e in entries ensures root <= e { assert root <= Parent(e) <= e; }
    forall p | p in t' && p != [] ensures Parent(p) in t' { assert t[Parent(p)] == Dir; }
  }

  ghost function OpenStack(t: Tree, stack: seq<Frame>, entries: seq<Path>): seq<Frame>
    requires stack != []
  {
    stack[..|stack| - 1] + [(stack[|stack| - 1].0, true)] + Stacked(t, entries)
  }

  ghost predicate Lists(t: Tree, d: Path, entries: seq<Path>) {
    && (forall e :: e in entries <==> e in t && IsChild(e, d))
    && (forall i, j | 0 <= i < j < |entries| :: entries[i] != entries[j])
  }

  lemma OpenKeepsStackOk(t: Tree, root: Path, stack: seq<Frame>, entries: seq<Path>)
    requires StackOk(t, root, stack) && Untouched(stack) && stack != [] && !stack[|stack| - 1].1
    requires Lists(t, stack[|stack| - 1].0, entries)
    ensures StackOk(t - Unlinked(t, entries), root, OpenStack(t, stack, entries))
  {
    StackedIs(t, entries);
    hide Stacked;
    var n := |stack| - 1;
    var d, up, s' := stack[n].0, Stacked(t, entries), OpenStack(t, stack, entries);
    forall k | 0 <= k < |up| ensures root <= up[k].0 && d <= up[k].0 && d != up[k].0 {
      assert IsChild(up[k].0, d);
    }
    forall i, j | 0 <= i < j < |s'| ensures s'[i].0 != s'[j].0 {
      if i <= n < j { assert d <= s'[j].0 == up[j - n - 1].0; }
    }
  }

  lemma OpenKeepsCovered(t: Tree, stack: seq<Frame>, entries: seq<Path>)
    requires Covered(t, stack) && stack != [] && Lists(t, stack[|stack| - 1].0, entries)
    ensures Covered(t - Unlinked(t, entries), OpenStack(t, stack, entries))
  {
    StackedIs(t, entries);
    hide Stacked;
    var n := |stack| - 1;
    var up, t', s' := Stacked(t, entries), t - Unlinked(t, entries), OpenStack(t, stack, entries);
    forall i, c | 0 <= i < |s'| && s'[i].1 && c in t' && IsChild(c, s'[i].0) ensures Waiting(s', i, c) {
      if i < n {
        assert Waiting(stack, i, c);
        var j :| i < j < |stack| && stack[j].0 == c;
        assert s'[j].0 == c;
      } else {
        assert i == n && c in entries && t[c] == Dir;
        var k :| 0 <= k < |up| && up[k].0 == c;
        assert s'[n + 1 + k].0 == c;
      }
    }
  }

  lemma OpenKeepsUntouched(t: Tree, root: Path, stack: seq<Frame>, entries: seq<Path>)
    requires Untouched(stack) && stack != [] && !stack[|stack| - 1].1
    requires Lists(t, stack[|stack| - 1].0, entries)
    ensures Untouched(OpenStack(t, stack, entries))
  {
    StackedIs(t, entries);
    hide Stacked;
    var n := |stack| - 1;
    var d, up, s' := stack[n].0, Stacked(t, entries), OpenStack(t, stack, entries);
    forall k | 0 <= k < |up| ensures IsChild(up[k].0, d) && d <= up[k].0 && |up[k].0| == |d| + 1 {
      assert up[k].0 in entries;
    }
    assert forall i | 0 <= i < n :: !(d <= stack[i].0);
    assert forall i | 0 <= i < n && !stack[i].1 :: !(stack[i].0 <= d);
    forall i, k | 0 <= i < n && 0 <= k < |up| && stack[i].0 <= up[k].0 ensures stack[i].0 <= d || d <= stack[i].0 {}
  }

  lemma OpenKeeps(t0: Tree, t: Tree, root: Path, stack: seq<Frame>, entries: seq<Path>)
    requires Progress(t0, t, root, stack) && stack != [] && !stack[|stack| - 1].1
    requires Lists(t, stack[|stack| - 1].0, entries)
    ensures Progress(t0, t - Unlinked(t, entries), root, OpenStack(t, stack, entries))
  {
    OpenKeepsShrunk(t0, t, root, stack[|stack| - 1].0, entries);
    OpenKeepsStackOk(t, root, stack, entries);
    OpenKeepsCovered(t, stack, entries);
    OpenKeepsUntouched(t, root, stack, entries);
  }

  // Directories opened and not yet removed; only the proof of termination needs them.
  ghost function Opened(stack: seq<Frame>): set<Path> { set i | 0 <= i < |stack| && stack[i].1 :: stack[i].0 }

  lemma OpenedGrows(t: Tree, root: Path, stack: seq<Frame>, entries: seq<Path>)
    requires StackOk(t, root, stack) && stack != [] && !stack[|stack| - 1].1
    requires Lists(t, stack[|stack| - 1].0, entries)
    ensures stack[|stack| - 1].0 !in Opened(stack)
    ensures Opened(OpenStack(t, stack, entries)) == Opened(stack) + {stack[|stack| - 1].0}
  {
    StackedIs(t, entries);
    hide Stacked;
    var n, s' := |stack| - 1, OpenStack(t, stack, entries);
    assert s'[n] == (stack[n].0, true);
    forall d | d in Opened(stack) ensures d in Opened(s') {
      var i :| 0 <= i < |stack| && stack[i].1 && stack[i].0 == d;
      assert s'[i] == stack[i];
    }
  }

  // What a finished clean-up leaves: everything that is not at or below the root.
  function Without(t: Tree, root: Path): Tree { map p | p in t && !(root <= p) :: t[p] }

  lemma {:induction false} GoneBelow(t: Tree, root: Path, p: Path)
    requires Valid(t) && root !in t && root <= p
    ensures p !in t
    decreases |p|
  {
    if p != root && p in t {
      GoneBelow(t, root, Parent(p));
    }
  }

  lemma EmptyStackIsDone(t0: Tree, t: Tree, root: Path)
    requires Progress(t0, t, root, [])
    ensures t == Without(t0, root) && Valid(t)
  {
    forall p | root <= p ensures p !in t { GoneBelow(t, root, p); }
  }

  lemma WithoutIsDone(t0: Tree, t: Tree, q: Path)
    requires Shrunk(t0, t, q) && q !in t
    ensures t == Without(t0, q)
  {
    forall p | q <= p ensures p !in t { GoneBelow(t, q, p); }
  }

  // ------------------------------------------------ a root reached through links

  /** The path `root` names the directory `q`, perhaps through links on the way. */
  ghost predicate Names(t: Tree, root: Path, q: Path) {
    Valid(t) && root != [] && Locate(t, root) == Ok(q) && q in t && t[q] == Dir
  }

  // The tree without what lies strictly below `q`.
  function Outside(t: Tree, q: Path): Tree { map p | p in t && (p == q || !(q <= p)) :: t[p] }

  /** The way to `q` does not itself run through what `q` holds. */
  ghost predicate Anchored(t: Tree, root: Path, q: Path) { Resolve(Outside(t, q), root) == Ok(q) }

  ghost predicate Reaches(t: Tree, root: Path, q: Path) { q in t && Resolve(t, root) == Ok(q) }

  // The node a path below `root` stands for.
  ghost function Real(root: Path, q: Path, p: Path): Path { if root <= p then q + p[|root|..] else q }

  ghost function Reals(root: Path, q: Path, ps: seq<Path>): seq<Path> {
    seq(|ps|, i requires 0 <= i < |ps| => Real(root, q, ps[i]))
  }

  ghost function RealStack(root: Path, q: Path, stack: seq<Frame>): seq<Frame> {
    seq(|stack|, i requires 0 <= i < |stack| => (Real(root, q, stack[i].0), stack[i].1))
  }

  ghost predicate Under(root: Path, stack: seq<Frame>) { forall i | 0 <= i < |stack| :: root <= stack[i].0 }

  // As long as the root is reached, paths below it name their own nodes.
  lemma Located(t0: Tree, t: Tree, root: Path, q: Path, p: Path)
    requires Names(t0, root, q) && Valid(t) && Within(t, t0) && Reaches(t, root, q)
    requires root <= p && Real(root, q, p) in t
    ensures Locate(t, p) == Ok(Real(root, q, p))
    ensures t[Real(root, q, p)] == Dir ==> Resolve(t, p) == Ok(Real(root, q, p))
  {
    hide Valid, Resolve, Locate;
    var rest := p[|root|..];
    assert p == root + rest;
    if rest == [] {
      DirectoryLocated(t, t0, root, q);
      assert p == root && q + rest == q;
    } else {
      BelowResolved(t, root, q, rest);
    }
  }

  // Once the way is cut nothing below the root is found, and it stays like that.
  lemma Lost(t0: Tree, t: Tree, root: Path, q: Path, p: Path)
    requires Names(t0, root, q) && Valid(t) && Within(t, t0) && q in t && !Reaches(t, root, q) && root <= p
    ensures Locate(t, p) == Err(NotFound) && Resolve(t, p) == Err(NotFound)
  {
    hide Valid, Resolve, Locate;
    var rest := p[|root|..];
    assert p == root + rest;
    DirectoryLocated(t, t0, root, q);
    BelowMissing(t, root, rest);
    if rest == [] { assert p == root; }
  }

  // The way holds until the end exactly when it does not run through what is deleted.
  lemma AnchoredReaches(t0: Tree, t: Tree, root: Path, q: Path)
    requires Anchored(t0, root, q) && Shrunk(t0, t, q) && q in t
    ensures Reaches(t, root, q)
  {
    hide Valid, Walk;
    WalkGrows(Outside(t0, q), t, [], root, MAX_LINKS);
  }

  lemma ChildOnTheWay(t: Tree, q: Path, p: Path) returns (c: Path)
    requires Valid(t) && p in t && q <= p && p != q
    ensures c in t && IsChild(c, q)
  {
    c := p[..|q| + 1];
    if c == p { assert Parent(p) == q; } else { AncestorsAreDirs(t, p, |q| + 1); }
  }

  lemma EmptiedIsAnchored(t0: Tree, t: Tree, root: Path, q: Path)
    requires Shrunk(t0, t, q) && Reaches(t, root, q) && forall c | c in t :: !IsChild(c, q)
    ensures Anchored(t0, root, q)
  {
    forall p | p in t ensures p == q || !(q <= p) {
      if q <= p && p != q { var c := ChildOnTheWay(t, q, p); }
    }
    hide Valid, Walk;
    WalkGrows(t, Outside(t0, q), [], root, MAX_LINKS);
  }

  // ------------------------------------------------------------------- the loops

  lemma Unlink(t0: Tree, t: Tree, root: Path, q: Path, entries: seq<Path>, i: nat)
    requires Names(t0, root, q) && Valid(t) && Within(t, t0) && q in t && i <= |entries|
    ensures var t' := t - Unlinked(t, Reals(root, q, entries[..i])); Valid(t') && Within(t', t0) && q in t'
  {
    var t' := t - Unlinked(t, Reals(root, q, entries[..i]));
    forall p | p in t' && p != [] ensures Parent(p) in t' { assert t[Parent(p)] == Dir; }
  }

  lemma RealsApart(root: Path, q: Path, entries: seq<Path>, i: nat)
    requires forall e | e in entries :: root <= e
    requires (forall j, k | 0 <= j < k < |entries| :: entries[j] != entries[k]) && i < |entries|
    ensures Real(root, q, entries[i]) !in Reals(root, q, entries[..i])
    ensures Reals(root, q, entries[..i + 1]) == Reals(root, q, entries[..i]) + [Real(root, q, entries[i])]
  {
    var e := entries[i];
    forall k | 0 <= k < i ensures Real(root, q, entries[k]) != Real(root, q, e) {
      var d := entries[k];
      assert d in entries && e in entries;
      RealTellsApart(root, q, d, e);
    }
  }

  lemma RealTellsApart(root: Path, q: Path, d: Path, e: Path)
    requires root <= d && root <= e
    ensures Real(root, q, d) == Real(root, q, e) ==> d == e
  {
    assert d == root + d[|root|..] && e == root + e[|root|..];
    assert Real(root, q, d)[|q|..] == d[|root|..] && Real(root, q, e)[|q|..] == e[|root|..];
  }

  lemma RealStackPush(root: Path, q: Path, stack: seq<Frame>, f: Frame)
    ensures RealStack(root, q, stack + [f]) == RealStack(root, q, stack) + [(Real(root, q, f.0), f.1)]
  {}

  lemma OneMore(t: Tree, es: seq<Path>, e: Path)
    requires e !in es && e in t
    ensures e in t - Unlinked(t, es)
    ensures t - Unlinked(t, es + [e]) == if t[e] == Dir then t - Unlinked(t, es) else t - Unlinked(t, es) - {e}
    ensures Stacked(t, es + [e]) == Stacked(t, es) + if t[e] == Dir then [(e, false)] else []
  {
    assert (es + [e])[..|es|] == es;
  }

  // `i` entries of the listing have been looked at, `done` of them before the way was cut.
  ghost predicate ScanInv(t: Tree, now: Tree, root: Path, q: Path, entries: seq<Path>, i: nat, done: nat,
                          stack: seq<Frame>, pushed: seq<Frame>)
  {
    && done <= i <= |entries| && Under(root, pushed)
    && now == t - Unlinked(t, Reals(root, q, entries[..done]))
    && (Reaches(now, root, q) ==>
          && done == i
          && RealStack(root, q, pushed) == RealStack(root, q, stack) + Stacked(t, Reals(root, q, entries[..i])))
  }

  // The next entry: a directory is stacked, anything else unlinked, and one that is not found is skipped.
  lemma EntryTurn(t0: Tree, t: Tree, now: Tree, root: Path, q: Path, entries: seq<Path>, i: nat, done: nat,
                  stack: seq<Frame>, pushed: seq<Frame>)
    requires Names(t0, root, q) && Valid(t) && Within(t, t0) && q in t
    requires forall e | e in entries :: root <= e && Real(root, q, e) in t
    requires forall i, j | 0 <= i < j < |entries| :: entries[i] != entries[j]
    requires i < |entries| && ScanInv(t, now, root, q, entries, i, done, stack, pushed)
    ensures match Locate(now, entries[i])
            case Err(error) => error == NotFound && ScanInv(t, now, root, q, entries, i + 1, done, stack, pushed)
            case Ok(p) =>
              && p in now
              && if now[p] == Dir then ScanInv(t, now, root, q, entries, i + 1, i + 1, stack, pushed + [(entries[i], false)])
                 else ScanInv(t, now - {p}, root, q, entries, i + 1, i + 1, stack, pushed)
  {
    hide Walk, Resolve, Locate, Valid, Within, Names, Reaches, Unlinked, Stacked, Real, Reals;
    var e := entries[i];
    Unlink(t0, t, root, q, entries, done);
    RealsApart(root, q, entries, i);
    OneMore(t, Reals(root, q, entries[..i]), Real(root, q, e));
    RealStackPush(root, q, pushed, (e, false));
    if Reaches(now, root, q) { Located(t0, now, root, q, e); } else { Lost(t0, now, root, q, e); }
  }

  /** The listing loop: every entry is looked at without following it. */
  method ScanDirectory(fs: FileSystem, entries: seq<Path>, stack: seq<Frame>, ghost t0: Tree, ghost root: Path, ghost q: Path)
    returns (r: IoResult<()>, pushed: seq<Frame>, ghost done: nat)
    requires Names(t0, root, q) && Valid(fs.tree) && Within(fs.tree, t0) && Reaches(fs.tree, root, q)
    requires forall e | e in entries :: root <= e && Real(root, q, e) in fs.tree
    requires forall i, j | 0 <= i < j < |entries| :: entries[i] != entries[j]
    requires Under(root, stack)
    modifies fs
    ensures r == Ok(()) && ScanInv(old(fs.tree), fs.tree, root, q, entries, |entries|, done, stack, pushed)
  {
    ghost var t := fs.tree;
    pushed, done := stack, 0;
    BeginScan(t, root, q, entries, stack);
    hide *;
    for i := 0 to |entries|
      invariant done <= i && ScanInv(t, fs.tree, root, q, entries, i, done, stack, pushed)
    {
      var e := entries[i];
      EntryTurn(t0, t, fs.tree, root, q, entries, i, done, stack, pushed);
      if Locate(fs.tree, e).Ok? { done := i + 1; }
      var meta := fs.Lstat(e);
      match meta {
        case Ok(Dir) => pushed := pushed + [(e, false)];
        case Ok(_) =>
          var gone := fs.RemoveFile(e);
          match gone {
            case Ok(_) =>
            case Err(NotFound) =>
            case Err(error) => return Err(error), pushed, done;
          }
        case Err(NotFound) =>
        case Err(error) => return Err(error), pushed, done;
      }
    }
    r := Ok(());
  }

  lemma BeginScan(t: Tree, root: Path, q: Path, entries: seq<Path>, stack: seq<Frame>)
    requires Under(root, stack)
    ensures ScanInv(t, t, root, q, entries, 0, 0, stack, stack)
  {
    assert entries[..0] == [];
    NothingYet(t, root, q);
  }

  lemma NothingYet(t: Tree, root: Path, q: Path)
    ensures Reals(root, q, []) == [] && Unlinked(t, []) == {} && t - {} == t && Stacked(t, []) == []
  {}

  // What ReadDir lists of `dir` are the children of the directory it stands for.
  lemma ListedBelow(t: Tree, root: Path, q: Path, dir: Path, entries: seq<Path>)
    requires root <= dir
    requires forall e :: e in entries <==> IsChild(e, dir) && Real(root, q, dir) + [Name(e)] in t
    requires forall i, j | 0 <= i < j < |entries| :: entries[i] != entries[j]
    ensures forall e | e in entries :: root <= e && Real(root, q, e) in t
    ensures Lists(t, Real(root, q, dir), Reals(root, q, entries))
  {
    var d, mapped := Real(root, q, dir), Reals(root, q, entries);
    forall e | IsChild(e, dir) ensures root <= e && Real(root, q, e) == d + [Name(e)] { ChildIsReal(root, q, dir, e); }
    forall c ensures c in mapped <==> c in t && IsChild(c, d) {
      if c in t && IsChild(c, d) {
        var e := dir + [Name(c)];
        assert IsChild(e, dir) && Real(root, q, e) == c;
        var k :| 0 <= k < |entries| && entries[k] == e;
        assert mapped[k] == c;
      }
      if c in mapped {
        var k :| 0 <= k < |mapped| && mapped[k] == c;
        assert entries[k] in entries;
      }
    }
    forall i, j | 0 <= i < j < |mapped| ensures mapped[i] != mapped[j] {
      assert entries[i] in entries && entries[j] in entries;
      RealTellsApart(root, q, entries[i], entries[j]);
    }
  }

  lemma ChildIsReal(root: Path, q: Path, dir: Path, e: Path)
    requires root <= dir && IsChild(e, dir)
    ensures root <= e && Real(root, q, e) == Real(root, q, dir) + [Name(e)]
  {
    assert e == dir + [Name(e)];
    assert e[|root|..] == dir[|root|..] + [Name(e)];
  }

  // Once the directory itself is gone nothing is waiting any more.
  lemma GoneIsOver(t0: Tree, t: Tree, q: Path, stack: seq<Frame>)
    requires Progress(t0, t, q, stack) && q !in t
    ensures stack == []
  {
    if stack != [] { GoneBelow(t, q, stack[0].0); }
  }

  ghost function Weight(stack: seq<Frame>): nat {
    if stack == [] then 0 else Weight(stack[..|stack| - 1]) + if stack[|stack| - 1].1 then 1 else 2
  }

  // Between two turns of the outer loop.
  ghost predicate LoopInv(t0: Tree, t: Tree, root: Path, q: Path, stack: seq<Frame>) {
    && Shrunk(t0, t, q) && Under(root, stack)
    && (Reaches(t, root, q) ==> Progress(t0, t, q, RealStack(root, q, stack)))
    && (q !in t ==> stack == [] && Anchored(t0, root, q))
  }

  // How much is left to do, in a tree of the same size.
  ghost function Left(t: Tree, root: Path, q: Path, stack: seq<Frame>): nat {
    if Reaches(t, root, q) then |t.Keys - Opened(RealStack(root, q, stack))| else Weight(stack)
  }

  lemma BeginLoop(t0: Tree, root: Path, q: Path)
    requires Names(t0, root, q)
    ensures LoopInv(t0, t0, root, q, [(root, false)])
  {
    assert RealStack(root, q, [(root, false)]) == [(q, false)] by { assert Real(root, q, root) == q; }
    assert Progress(t0, t0, q, [(q, false)]);
  }

  lemma EndLoop(t0: Tree, t: Tree, root: Path, q: Path)
    requires LoopInv(t0, t, root, q, [])
    ensures Shrunk(t0, t, q) && (Anchored(t0, root, q) <==> t == Without(t0, q))
  {
    hide Valid, Walk, Anchored;
    if q !in t {
      WithoutIsDone(t0, t, q);
    } else {
      assert q !in Without(t0, q);
      if Anchored(t0, root, q) {
        AnchoredReaches(t0, t, root, q);
        EmptyStackIsDone(t0, t, q);
      }
    }
  }

  // The frame on top, as the tree sees it.
  lemma TopIs(t0: Tree, t: Tree, root: Path, q: Path, stack: seq<Frame>)
    requires Names(t0, root, q) && LoopInv(t0, t, root, q, stack) && stack != []
    ensures var (dir, visited) := stack[|stack| - 1];
      && Valid(t) && Within(t, t0) && q in t && root <= dir && Under(root, stack[..|stack| - 1] + [(dir, true)])
      && (Reaches(t, root, q) ==>
            (var d := Real(root, q, dir);
             && d in t && d != [] && t[d] == Dir && Locate(t, dir) == Ok(d) && Resolve(t, dir) == Ok(d)
             && (visited ==> !exists c :: c in t && IsChild(c, d))))
      && (!Reaches(t, root, q) ==> Locate(t, dir) == Err(NotFound) && Resolve(t, dir) == Err(NotFound))
  {
    hide Walk, Resolve, Locate, Valid, Real, Covered, Untouched;
    var n, dir := |stack| - 1, stack[|stack| - 1].0;
    if Reaches(t, root, q) {
      var mapped := RealStack(root, q, stack);
      assert mapped[n] == (Real(root, q, dir), stack[n].1);
      DirectoryLocated(t, t0, root, q);
      assert q <= Real(root, q, dir);
      Located(t0, t, root, q, dir);
      if stack[n].1 { forall c | c in t ensures !IsChild(c, mapped[n].0) { PoppedIsEmpty(t, mapped, c); } }
    } else {
      Lost(t0, t, root, q, dir);
    }
  }

  lemma RealStackPop(root: Path, q: Path, stack: seq<Frame>)
    requires stack != []
    ensures var n := |stack| - 1;
      RealStack(root, q, stack[..n]) == RealStack(root, q, stack)[..n] && RealStack(root, q, stack) != []
  {}

  // An emptied directory is removed.
  lemma RemovedKeeps(t0: Tree, t: Tree, root: Path, q: Path, stack: seq<Frame>)
    requires Names(t0, root, q) && LoopInv(t0, t, root, q, stack) && Reaches(t, root, q)
    requires stack != [] && stack[|stack| - 1].1
    ensures LoopInv(t0, t - {Real(root, q, stack[|stack| - 1].0)}, root, q, stack[..|stack| - 1])
  {
    hide Walk, Resolve, Locate, Valid, Within, Real, Reaches, Anchored, Covered, Untouched, StackOk, Shrunk;
    TopIs(t0, t, root, q, stack);
    var n, d := |stack| - 1, Real(root, q, stack[|stack| - 1].0);
    var mapped := RealStack(root, q, stack);
    RealStackPop(root, q, stack);
    assert mapped[n] == (d, true);
    DirectoryLocated(t, t0, root, q);
    DropKeeps(t0, t, q, mapped);
    if d == q {
      GoneIsOver(t0, t - {d}, q, mapped[..n]);
      EmptiedIsAnchored(t0, t, root, q);
    }
  }

  // A directory is opened and its entries dealt with, up to the one that cut the way.
  lemma ScannedKeeps(t0: Tree, t: Tree, t': Tree, root: Path, q: Path, stack: seq<Frame>, entries: seq<Path>, done: nat, pushed: seq<Frame>)
    requires Names(t0, root, q) && LoopInv(t0, t, root, q, stack) && Reaches(t, root, q)
    requires stack != [] && !stack[|stack| - 1].1
    requires Lists(t, Real(root, q, stack[|stack| - 1].0), Reals(root, q, entries))
    requires ScanInv(t, t', root, q, entries, |entries|, done, stack[..|stack| - 1] + [(stack[|stack| - 1].0, true)], pushed)
    ensures t'.Keys <= t.Keys && LoopInv(t0, t', root, q, pushed)
    ensures t'.Keys == t.Keys ==> Left(t', root, q, pushed) < Left(t, root, q, stack)
  {
    TopIs(t0, t, root, q, stack);
    hide Walk, Resolve, Locate, Valid, Real, Reaches, Anchored, Covered, Untouched, Unlinked, Stacked, Opened;
    var n, d := |stack| - 1, Real(root, q, stack[|stack| - 1].0);
    var mapped, es := RealStack(root, q, stack), Reals(root, q, entries);
    assert entries[..|entries|] == entries;
    assert Reals(root, q, entries[..done]) == es[..done];
    assert t'.Keys == t.Keys ==> t' == t;
    OpenKeepsShrunk(t0, t, q, d, es[..done]);
    Unlink(t0, t, root, q, entries, done);
    RealStackPop(root, q, stack);
    RealStackPush(root, q, stack[..n], (stack[n].0, true));
    if Reaches(t', root, q) {
      assert es[..done] == es;
      OpenKeeps(t0, t, q, mapped, es);
      OpenedGrows(t, q, mapped, es);
      assert RealStack(root, q, pushed) == OpenStack(t, mapped, es);
    }
  }

  // The way is cut: nothing changes any more but the stack.
  lemma LostKeeps(t0: Tree, t: Tree, root: Path, q: Path, stack: seq<Frame>)
    requires LoopInv(t0, t, root, q, stack) && !Reaches(t, root, q) && stack != []
    ensures var n := |stack| - 1;
      var next := if stack[n].1 then stack[..n] else stack[..n] + [(stack[n].0, true)];
      LoopInv(t0, t, root, q, next) && Left(t, root, q, next) < Left(t, root, q, stack)
  {
    hide Valid, Reaches, Anchored, Shrunk;
    var n := |stack| - 1;
    assert (stack[..n] + [(stack[n].0, true)])[..n] == stack[..n];
  }

  lemma FewerOrSame(t: Tree, t0: Tree)
    requires t.Keys <= t0.Keys
    ensures |t.Keys| < |t0.Keys| || t.Keys == t0.Keys
  {
    if t.Keys != t0.Keys {
      assert t.Keys < t0.Keys;
      SmallerSet(t.Keys, t0.Keys);
    }
  }

  lemma SmallerSet(a: set<Path>, b: set<Path>)
    requires a < b
    ensures |a| < |b|
  {
    assert |b| == |a| + |b - a|;
  }

  // What a turn of the loop finds, and the invariant after it.
  lemma VisitedTurn(t0: Tree, t: Tree, root: Path, q: Path, stack: seq<Frame>)
    requires Names(t0, root, q) && LoopInv(t0, t, root, q, stack) && stack != [] && stack[|stack| - 1].1
    ensures var n := |stack| - 1;
      match Locate(t, stack[n].0)
      case Err(e) =>
        && e == NotFound && LoopInv(t0, t, root, q, stack[..n])
        && Left(t, root, q, stack[..n]) < Left(t, root, q, stack)
      case Ok(d) =>
        && d != [] && d in t && t[d] == Dir && (!exists c :: c in t && IsChild(c, d))
        && LoopInv(t0, t - {d}, root, q, stack[..n]) && |(t - {d}).Keys| < |t.Keys|
  {
    hide LoopInv, Names, Left, Locate, Real, Reaches, Valid, Within, Resolve, IsChild;
    TopIs(t0, t, root, q, stack);
    if Reaches(t, root, q) {
      RemovedKeeps(t0, t, root, q, stack);
      assert (t - {Real(root, q, stack[|stack| - 1].0)}).Keys == t.Keys - {Real(root, q, stack[|stack| - 1].0)};
    } else {
      LostKeeps(t0, t, root, q, stack);
    }
  }

  lemma NewTurn(t0: Tree, t: Tree, root: Path, q: Path, stack: seq<Frame>)
    requires Names(t0, root, q) && LoopInv(t0, t, root, q, stack) && stack != [] && !stack[|stack| - 1].1
    ensures Valid(t) && Within(t, t0) && root <= stack[|stack| - 1].0
    ensures var dir := stack[|stack| - 1].0;
      var next := stack[..|stack| - 1] + [(dir, true)];
      && Under(root, next)
      && match Resolve(t, dir)
         case Err(e) =>
           && e == NotFound && LoopInv(t0, t, root, q, next)
           && Left(t, root, q, next) < Left(t, root, q, stack)
         case Ok(d) => Reaches(t, root, q) && d == Real(root, q, dir) && d in t && t[d] == Dir
  {
    hide LoopInv, Names, Left, Locate, Real, Reaches, Valid, Within, Resolve, IsChild, Under;
    TopIs(t0, t, root, q, stack);
    if !Reaches(t, root, q) { LostKeeps(t0, t, root, q, stack); }
  }

  /**
   The clean-up loop, on a tree nobody else changes, for a root that may be reached through
   links. It ends without an error, removes only what lies at or below the directory the root
   names, never what a link in there points to, and removes all of it exactly when the way to
   the directory does not run through its own contents.
   */
  method RemoveDirAllNoFollow(fs: FileSystem, root: Path, ghost q: Path) returns (r: IoResult<()>)
    requires Names(fs.tree, root, q)
    modifies fs
    ensures r == Ok(()) && Shrunk(old(fs.tree), fs.tree, q)
    ensures fs.tree == Without(old(fs.tree), q) <==> Anchored(old(fs.tree), root, q)
  {
    ghost var t0 := fs.tree;
    var stack: seq<Frame> := [(root, false)];
    BeginLoop(t0, root, q);
    hide *;
    while stack != []
      invariant LoopInv(t0, fs.tree, root, q, stack)
      decreases |fs.tree.Keys|, Left(fs.tree, root, q, stack)
    {
      var (dir, visited) := stack[|stack| - 1];
      var rest := stack[..|stack| - 1];
      ghost var before, top := fs.tree, stack;
      if visited {
        VisitedTurn(t0, before, root, q, top);
        var gone := fs.RemoveDir(dir);
        match gone {
          case Ok(_) =>
          case Err(NotFound) =>
          case Err(error) => return Err(error);
        }
        stack := rest;
        continue;
      }
      NewTurn(t0, before, root, q, top);
      var listed := fs.ReadDir(dir);
      stack := rest + [(dir, true)];
      match listed {
        case Err(NotFound) => continue;
        case Err(error) => return Err(error);
        case Ok(entries) =>
          ListedBelow(before, root, q, dir, entries);
          ghost var done;
          var scanned, pushed;
          scanned, pushed, done := ScanDirectory(fs, entries, stack, t0, root, q);
          ScannedKeeps(t0, before, fs.tree, root, q, top, entries, done, pushed);
          match scanned {
            case Ok(_) =>
            case Err(error) => return Err(error);
          }
          FewerOrSame(fs.tree, before);
          stack := pushed;
      }
    }
    EndLoop(t0, fs.tree, root, q);
    r := Ok(());
  }

  // ------------------------------------------------ when the way holds to the end

  ghost predicate Inside(q: Path, p: Path) { q <= p && p != q }

  // A path that has come below `q` stays there until it follows a link there.
  lemma {:induction false} StaysBelow(t: Tree, q: Path, at: Path, rest: Path, links: nat)
    requires Inside(q, at) && Walk(t, at, rest, links).Ok?
    ensures Inside(q, Walk(t, at, rest, links).value) || exists l :: l in Followed(t, at, rest, links) && Inside(q, l)
    decreases links, |rest|
  {
    if rest != [] {
      var next := at + [rest[0]];
      assert Inside(q, next);
      if t[next].Symlink? {
        assert next in Followed(t, at, rest, links);
      } else {
        StaysBelow(t, q, next, rest[1..], links);
      }
    }
  }

  lemma {:induction false} GoesAround(t: Tree, q: Path, at: Path, rest: Path, links: nat)
    requires [] in t && Walk(t, at, rest, links) == Ok(q) && !Inside(q, at)
    requires forall l | l in Followed(t, at, rest, links) :: !Inside(q, l)
    ensures Walk(Outside(t, q), at, rest, links) == Ok(q)
    decreases links, |rest|
  {
    if rest != [] {
      var next := at + [rest[0]];
      match t[next] {
        case Symlink(target) =>
          assert next in Followed(t, at, rest, links);
          GoesAround(t, q, [], target + rest[1..], links - 1);
        case _ =>
          if Inside(q, next) { StaysBelow(t, q, next, rest[1..], links); }
          GoesAround(t, q, next, rest[1..], links);
      }
    }
  }

  lemma {:induction false} FollowsTheSame(t: Tree, q: Path, at: Path, rest: Path, links: nat)
    requires Walk(Outside(t, q), at, rest, links).Ok?
    ensures forall l | l in Followed(t, at, rest, links) :: !Inside(q, l)
    decreases links, |rest|
  {
    if rest != [] {
      var next := at + [rest[0]];
      match t[next] {
        case Symlink(target) => FollowsTheSame(t, q, [], target + rest[1..], links - 1);
        case _ => FollowsTheSame(t, q, next, rest[1..], links);
      }
    }
  }

  /** No link followed on the way to `q` lies in there. */
  ghost predicate NoLinkFromInside(t: Tree, root: Path, q: Path) {
    forall l | l in Followed(t, [], root, MAX_LINKS) :: !(q <= l)
  }

  /** The clean-up is complete exactly when no link followed on the way lies inside the directory. */
  lemma AnchoredIff(t: Tree, root: Path, q: Path)
    requires Names(t, root, q)
    ensures Anchored(t, root, q) <==> NoLinkFromInside(t, root, q)
  {
    DirectoryLocated(t, t, root, q);
    FollowsLinks(t, [], root, MAX_LINKS);
    if Anchored(t, root, q) { FollowsTheSame(t, q, [], root, MAX_LINKS); }
    if NoLinkFromInside(t, root, q) { GoesAround(t, q, [], root, MAX_LINKS); }
  }

  lemma {:induction false} FollowsLinks(t: Tree, at: Path, rest: Path, links: nat)
    ensures forall l | l in Followed(t, at, rest, links) :: l in t && t[l].Symlink?
    decreases links, |rest|
  {
    if rest != [] && at in t && t[at] == Dir && at + [rest[0]] in t {
      var next := at + [rest[0]];
      match t[next] {
        case Symlink(target) => if links > 0 { FollowsLinks(t, [], target + rest[1..], links - 1); }
        case _ => FollowsLinks(t, next, rest[1..], links);
      }
    }
  }

  /** A root that is a directory of the tree itself, reached without links, is always cleaned up entirely. */
  lemma PlainRoot(t: Tree, root: Path)
    requires Valid(t) && root != [] && root in t && t[root] == Dir
    ensures Names(t, root, root) && Anchored(t, root, root)
  {
    PathIsItself(t, root);
    PathIsItself(Outside(t, root), root);
  }

  // ---------------------------------------------------------------- entry checks

  datatype CleanupError = CleanupEscape | NotADirectoryRoot | Io(error: IoError)

  datatype CleanupResult = Cleaned | Refused(error: CleanupError)

  // What a clean-up does once it has found a directory.
  ghost predicate CleanedUp(t0: Tree, t: Tree, root: Path, q: Path) {
    Shrunk(t0, t, q) && (t == Without(t0, q) <==> Anchored(t0, root, q))
  }

  /** `cleanup_root`, before and after a write job. */
  method CleanupRoot(fs: FileSystem, mount: Path, root: Path) returns (r: CleanupResult)
    requires Valid(fs.tree) && root != []
    modifies fs
    ensures
      if !(mount <= root) then r == Refused(CleanupEscape) && fs.tree == old(fs.tree)
      else match Locate(old(fs.tree), root)
        case Err(NotFound) => r == Cleaned && fs.tree == old(fs.tree)
        case Err(e) => r == Refused(Io(e)) && fs.tree == old(fs.tree)
        case Ok(q) => q in old(fs.tree) && match old(fs.tree)[q]
          case Symlink(_) => r == Refused(CleanupEscape) && fs.tree == old(fs.tree)
          case File => r == Refused(NotADirectoryRoot) && fs.tree == old(fs.tree)
          case Dir => r == Cleaned && CleanedUp(old(fs.tree), fs.tree, root, q)
  {
    if !(mount <= root) { return Refused(CleanupEscape); }
    hide Walk, Resolve, Valid, Without, Anchored, Shrunk;
    var meta := fs.Lstat(root);
    match meta {
      case Err(NotFound) => return Cleaned;
      case Err(e) => return Refused(Io(e));
      case Ok(Symlink(_)) => return Refused(CleanupEscape);
      case Ok(File) => return Refused(NotADirectoryRoot);
      case Ok(Dir) =>
        var removed := RemoveDirAllNoFollow(fs, root, Locate(fs.tree, root).value);
        match removed {
          case Ok(_) => return Cleaned;
          case Err(e) => return Refused(Io(e));
        }
    }
  }

  /**
   `best_effort_cleanup`, after every metadata run that built its own layout: as above, but a
   root that is no directory is left alone without complaint.
   */
  method BestEffortCleanup(fs: FileSystem, mount: Path, root: Path) returns (r: CleanupResult)
    requires Valid(fs.tree) && root != []
    modifies fs
    ensures
      if !(mount <= root) then r == Refused(CleanupEscape) && fs.tree == old(fs.tree)
      else match Locate(old(fs.tree), root)
        case Err(NotFound) => r == Cleaned && fs.tree == old(fs.tree)
        case Err(e) => r == Refused(Io(e)) && fs.tree == old(fs.tree)
        case Ok(q) => q in old(fs.tree) && match old(fs.tree)[q]
          case Symlink(_) => r == Refused(CleanupEscape) && fs.tree == old(fs.tree)
          case File => r == Cleaned && fs.tree == old(fs.tree)
          case Dir => r == Cleaned && CleanedUp(old(fs.tree), fs.tree, root, q)
  {
    if !(mount <= root) { return Refused(CleanupEscape); }
    hide Walk, Resolve, Valid, Without, Anchored, Shrunk;
    var meta := fs.Lstat(root);
    match meta {
      case Err(NotFound) => return Cleaned;
      case Err(e) => return Refused(Io(e));
      case Ok(Symlink(_)) => return Refused(CleanupEscape);
      case Ok(File) => return Cleaned;
      case Ok(Dir) =>
        var removed := RemoveDirAllNoFollow(fs, root, Locate(fs.tree, root).value);
        match removed {
          case Ok(_) => return Cleaned;
          case Err(e) => return Refused(Io(e));
        }
    }
  }

  /**
   Both checks compare the path itself with the mount point. What a clean-up removes lies
   inside the mounted directory `m` exactly when the directory the root names does, and that
   is so when nothing between the mount point and the root is a link.
   */
  lemma InsideMount(t: Tree, mount: Path, rest: Path, m: Path, q: Path)
    requires Resolve(t, mount) == Ok(m) && Names(t, mount + rest, q)
    ensures (forall p | p in t && p !in Without(t, q) :: m <= p) <==> m <= q
    ensures m + rest in t ==> q == m + rest
  {
    hide Walk, Resolve, Locate, Valid;
    if m <= q {
      forall p | p in t && p !in Without(t, q) ensures m <= p { assert m <= q <= p; }
    } else {
      assert q in t && q !in Without(t, q);
    }
    if rest == [] {
      assert mount + rest == mount && m + rest == m;
      DirectoryLocated(t, t, mount, q);
    } else if m + rest in t {
      BelowResolved(t, mount, m, rest);
    }
  }

  /** The check alone does not tell: /m/l/j passes it for the mount point /m, and is /x/j when /m/l is a link to /x. */
  lemma LinkLeavesMount()
    ensures var t: Tree := map[[] := Dir, ["m"] := Dir, ["m", "l"] := Symlink(["x"]), ["x"] := Dir, ["x", "j"] := Dir];
      && ["m"] <= ["m", "l", "j"] && Resolve(t, ["m"]) == Ok(["m"])
      && Names(t, ["m", "l", "j"], ["x", "j"]) && !(["m"] <= ["x", "j"])
  {
    var t: Tree := map[[] := Dir, ["m"] := Dir, ["m", "l"] := Symlink(["x"]), ["x"] := Dir, ["x", "j"] := Dir];
    assert Parent(["m"]) == [] && Parent(["m", "l"]) == ["m"] && Parent(["x"]) == [] && Parent(["x", "j"]) == ["x"];
    assert Valid(t);
    PathIsItself(t, ["m"]);
    assert Parent(["m", "l", "j"]) == ["m", "l"];
    calc {
      Resolve(t, ["m", "l"]);
      { assert [] + ["m"] == ["m"] && ["m", "l"][1..] == ["l"]; }
      Walk(t, ["m"], ["l"], MAX_LINKS);
      { assert ["m"] + ["l"] == ["m", "l"] && ["x"] + ["l"][1..] == ["x"]; }
      Walk(t, [], ["x"], MAX_LINKS - 1);
      { assert [] + ["x"] == ["x"] && ["x"][1..] == []; }
      Ok(["x"]);
    }
    assert ["x"] + ["j"] == ["x", "j"];
  }
}
