/**
 The worker's directory clean-up (crates/cvd-worker/src/runner/write.rs:134-241 and
 crates/cvd-worker/src/lifecycle.rs:150-206): a depth-first delete that drives an
 explicit stack and must not follow symbolic links.

 The file system is a finite tree in which a path is resolved component by component,
 through any link it meets, as the kernel does it; only the last component of `Lstat`,
 `RemoveFile` and `RemoveDir` is not followed. So a clean-up that asked for the followed
 metadata, or listed a link, would leave the subtree in this model too.
 */
module FileTree {
  import opened Types

  type Path = seq<string>

  // A link's target is written out from the root: directories never move, so a relative one can be.
  datatype Node = Dir | File | Symlink(target: Path)

  type Tree = map<Path, Node>

  datatype IoError = NotFound | NotADirectory | IsADirectory | NotEmpty | Busy | TooManyLinks

  datatype IoResult<T> = Ok(value: T) | Err(error: IoError)

  ghost predicate Valid(t: Tree) {
    && [] in t && t[[]] == Dir
    && forall p | p in t && p != [] :: Parent(p) in t && t[Parent(p)] == Dir
  }

  function Parent(p: Path): Path
    requires p != []
  {
    p[..|p| - 1]
  }

  function Name(p: Path): string
    requires p != []
  {
    p[|p| - 1]
  }

  const MAX_LINKS: nat := 40

  // Resolves `rest` from the real directory `at`, following every link on the way.
  function Walk(t: Tree, at: Path, rest: Path, links: nat): IoResult<Path>
    decreases links, |rest|
  {
    if rest == [] then Ok(at)
    else
      var next := at + [rest[0]];
      if at !in t || t[at] != Dir then Err(NotADirectory)
      else if next !in t then Err(NotFound)
      else match t[next]
        case Symlink(target) => if links == 0 then Err(TooManyLinks) else Walk(t, [], target + rest[1..], links - 1)
        case _ => Walk(t, next, rest[1..], links)
  }

  function Resolve(t: Tree, p: Path): IoResult<Path> { Walk(t, [], p, MAX_LINKS) }

  // The entry a path names when its last component is not followed.
  function Locate(t: Tree, p: Path): IoResult<Path> {
    if p == [] then Ok([])
    else match Resolve(t, Parent(p))
      case Err(e) => Err(e)
      case Ok(d) =>
        if d !in t || t[d] != Dir then Err(NotADirectory)
        else if d + [Name(p)] in t then Ok(d + [Name(p)])
        else Err(NotFound)
  }

  ghost predicate IsChild(c: Path, d: Path) { c != [] && Parent(c) == d }

  class FileSystem {
    var tree: Tree

    method Lstat(p: Path) returns (r: IoResult<Node>)
      ensures r == match Locate(tree, p)
                   case Ok(q) => if q in tree then Ok(tree[q]) else Err(NotFound)
                   case Err(e) => Err(e)
    {
      match Locate(tree, p) {
        case Ok(q) => r := if q in tree then Ok(tree[q]) else Err(NotFound);
        case Err(e) => r := Err(e);
      }
    }

    /** The entries of the directory `p` names, links followed, in whatever order the system returns them. */
    method ReadDir(p: Path) returns (r: IoResult<seq<Path>>)
      ensures match Resolve(tree, p)
              case Err(e) => r == Err(e)
              case Ok(d) =>
                if d !in tree || tree[d] != Dir then r == Err(NotADirectory)
                else
                  && r.Ok?
                  && (forall e :: e in r.value <==> IsChild(e, p) && d + [Name(e)] in tree)
                  && (forall i, j | 0 <= i < j < |r.value| :: r.value[i] != r.value[j])
    {
      match Resolve(tree, p) {
        case Err(e) => return Err(e);
        case Ok(d) =>
          if d !in tree || tree[d] != Dir { return Err(NotADirectory); }
          var todo := set q | q in tree && q != [] && Parent(q) == d;
          ghost var all := todo;
          var entries := [];
          while todo != {}
            invariant todo <= all
            invariant forall e :: e in entries <==> IsChild(e, p) && d + [Name(e)] in all - todo
            invariant forall i, j | 0 <= i < j < |entries| :: entries[i] != entries[j]
            decreases |todo|
          {
            var q :| q in todo;
            var e := p + [Name(q)];
            assert q == d + [Name(q)];
            assert e !in entries;
            assert forall x | IsChild(x, p) && d + [Name(x)] == q :: x == p + [Name(x)] && Name(x) == (d + [Name(x)])[|d|];
            entries := entries + [e];
            todo := todo - {q};
          }
          assert forall x | d + [x] in tree :: d + [x] in all by {
            forall x | d + [x] in tree ensures d + [x] in all {
              assert Parent(d + [x]) == d;
            }
          }
          return Ok(entries);
      }
    }

    method RemoveFile(p: Path) returns (r: IoResult<()>)
      modifies this
      ensures match Locate(old(tree), p)
              case Err(e) => r == Err(e) && tree == old(tree)
              case Ok(q) =>
                if q in old(tree) && old(tree)[q] != Dir then r == Ok(()) && tree == old(tree) - {q}
                else r == Err(IsADirectory) && tree == old(tree)
    {
      match Locate(tree, p) {
        case Err(e) => r := Err(e);
        case Ok(q) =>
          if q in tree && tree[q] != Dir {
            tree := tree - {q};
            r := Ok(());
          } else {
            r := Err(IsADirectory);
          }
      }
    }

    method RemoveDir(p: Path) returns (r: IoResult<()>)
      modifies this
      ensures match Locate(old(tree), p)
              case Err(e) => r == Err(e) && tree == old(tree)
              case Ok(q) =>
                if q == [] then r == Err(Busy) && tree == old(tree)
                else if q !in old(tree) || old(tree)[q] != Dir then r == Err(NotADirectory) && tree == old(tree)
                else if exists c :: c in old(tree) && IsChild(c, q) then r == Err(NotEmpty) && tree == old(tree)
                else r == Ok(()) && tree == old(tree) - {q}
    {
      match Locate(tree, p) {
        case Err(e) => r := Err(e);
        case Ok(q) =>
          var inside := set c | c in tree && c != [] && Parent(c) == q;
          if q == [] {
            r := Err(Busy);
          } else if q !in tree || tree[q] != Dir {
            r := Err(NotADirectory);
          } else if inside != {} {
            ghost var c :| c in inside;
            assert c in tree && IsChild(c, q);
            r := Err(NotEmpty);
          } else {
            assert forall c | c in tree && IsChild(c, q) :: c in inside;
            tree := tree - {q};
            r := Ok(());
          }
      }
    }
  }

  // ------------------------------------------------ paths made of real directories

  lemma {:induction false} AncestorsAreDirs(t: Tree, p: Path, k: nat)
    requires Valid(t) && p in t && k < |p|
    ensures p[..k] in t && t[p[..k]] == Dir
    decreases |p|
  {
    if k < |p| - 1 {
      AncestorsAreDirs(t, Parent(p), k);
      assert Parent(p)[..k] == p[..k];
    }
  }

  lemma {:induction false} WalkStays(t: Tree, p: Path, k: nat, links: nat)
    requires Valid(t) && p in t && !t[p].Symlink? && k <= |p|
    ensures Walk(t, p[..k], p[k..], links) == Ok(p)
    decreases |p| - k
  {
    if k < |p| {
      AncestorsAreDirs(t, p, k);
      assert p[..k] + [p[k..][0]] == p[..k + 1];
      assert p[k..][1..] == p[k + 1..];
      if k + 1 < |p| { AncestorsAreDirs(t, p, k + 1); } else { assert p[..k + 1] == p; }
      WalkStays(t, p, k + 1, links);
    } else {
      assert p[..k] == p;
    }
  }

  /** A path the tree holds names its own node; nothing on the way is a link. */
  lemma PathIsItself(t: Tree, p: Path)
    requires Valid(t) && p in t
    ensures Locate(t, p) == Ok(p)
    ensures !t[p].Symlink? ==> Resolve(t, p) == Ok(p)
  {
    if p != [] {
      WalkStays(t, Parent(p), 0, MAX_LINKS);
      assert Parent(p)[..0] == [] && Parent(p)[0..] == Parent(p);
      assert Parent(p) + [Name(p)] == p;
    }
    if !t[p].Symlink? {
      WalkStays(t, p, 0, MAX_LINKS);
      assert p[..0] == [] && p[0..] == p;
    }
  }

  // ------------------------------------------------------ paths through links

  ghost predicate Within(t: Tree, t0: Tree) { t.Keys <= t0.Keys && forall p | p in t :: t[p] == t0[p] }

  // A path that resolves goes on resolving to the same node when nodes are added.
  lemma {:induction false} WalkGrows(t: Tree, t': Tree, at: Path, rest: Path, links: nat)
    requires Within(t, t') && Walk(t, at, rest, links).Ok?
    ensures Walk(t', at, rest, links) == Walk(t, at, rest, links)
    decreases links, |rest|
  {
    if rest != [] {
      var next := at + [rest[0]];
      match t[next] {
        case Symlink(target) => WalkGrows(t, t', [], target + rest[1..], links - 1);
        case _ => WalkGrows(t, t', next, rest[1..], links);
      }
    }
  }

  // When nodes are removed, a path resolves as before or meets a missing node.
  lemma {:induction false} WalkShrinks(t: Tree, t0: Tree, at: Path, rest: Path, links: nat)
    requires Within(t, t0) && [] in t && at in t
    ensures Walk(t, at, rest, links) == Walk(t0, at, rest, links) || Walk(t, at, rest, links) == Err(NotFound)
    ensures Walk(t, at, rest, links).Ok? ==> Walk(t, at, rest, links).value in t
    decreases links, |rest|
  {
    var next := if rest == [] then at else at + [rest[0]];
    if rest != [] && t[at] == Dir && next in t {
      match t[next] {
        case Symlink(target) => if links > 0 { WalkShrinks(t, t0, [], target + rest[1..], links - 1); }
        case _ => WalkShrinks(t, t0, next, rest[1..], links);
      }
    }
  }

  // Resolving a path is resolving its first part and going on from there.
  lemma {:induction false} WalkOn(t: Tree, at: Path, a: Path, b: Path, links: nat) returns (left: nat)
    ensures match Walk(t, at, a, links)
            case Err(e) => Walk(t, at, a + b, links) == Err(e)
            case Ok(d) => Walk(t, at, a + b, links) == Walk(t, d, b, left)
    decreases links, |a|
  {
    left := links;
    if a == [] {
      assert a + b == b;
    } else {
      var next := at + [a[0]];
      assert (a + b)[0] == a[0] && (a + b)[1..] == a[1..] + b;
      if at in t && t[at] == Dir && next in t {
        match t[next] {
          case Symlink(target) =>
            if links > 0 {
              left := WalkOn(t, [], target + a[1..], b, links - 1);
              assert target + a[1..] + b == target + (a + b)[1..];
            }
          case _ => left := WalkOn(t, next, a[1..], b, links);
        }
      }
    }
  }

  // A directory `q` that `root` resolves to, and a path down from it.
  lemma ResolvedBelow(t: Tree, root: Path, q: Path, rest: Path)
    requires Valid(t) && Resolve(t, root) == Ok(q) && q + rest in t && t[q + rest] == Dir
    ensures Resolve(t, root + rest) == Ok(q + rest)
  {
    hide Walk, Valid;
    var p := q + rest;
    var left := WalkOn(t, [], root, rest, MAX_LINKS);
    WalkStays(t, p, |q|, left);
    assert p[..|q|] == q && p[|q|..] == rest;
  }

  /** Below a directory that `root` leads to, through whatever links, the paths go on as in the tree. */
  lemma BelowResolved(t: Tree, root: Path, q: Path, rest: Path)
    requires Valid(t) && Resolve(t, root) == Ok(q) && rest != [] && q + rest in t
    ensures Locate(t, root + rest) == Ok(q + rest)
    ensures t[q + rest] == Dir ==> Resolve(t, root + rest) == Ok(q + rest)
  {
    hide Walk, Resolve;
    var p, up := q + rest, Parent(rest);
    assert Parent(p) == q + up && t[q + up] == Dir;
    ResolvedBelow(t, root, q, up);
    assert root + up == Parent(root + rest);
    assert q + up + [Name(root + rest)] == p;
    if t[p] == Dir { ResolvedBelow(t, root, q, rest); }
  }

  lemma BelowMissing(t: Tree, root: Path, rest: Path)
    requires Resolve(t, root) == Err(NotFound)
    ensures Resolve(t, root + rest) == Err(NotFound)
    ensures rest != [] ==> Locate(t, root + rest) == Err(NotFound)
  {
    var left := WalkOn(t, [], root, rest, MAX_LINKS);
    if rest != [] {
      left := WalkOn(t, [], root, Parent(rest), MAX_LINKS);
      assert root + Parent(rest) == Parent(root + rest);
    }
  }

  // What becomes of a path to a directory when nodes are removed.
  lemma DirectoryLocated(t: Tree, t0: Tree, root: Path, q: Path)
    requires Valid(t) && Valid(t0) && Within(t, t0)
    requires root != [] && Locate(t0, root) == Ok(q) && q in t0 && t0[q] == Dir
    ensures Resolve(t0, root) == Ok(q) && q != []
    ensures q in t && Resolve(t, root) == Ok(q) ==> Locate(t, root) == Ok(q)
    ensures q !in t || Resolve(t, root) != Ok(q) ==> Locate(t, root) == Err(NotFound)
    ensures q in t && Resolve(t, root) != Ok(q) ==> Resolve(t, root) == Err(NotFound)
  {
    var up := Parent(root);
    assert up + [Name(root)] == root;
    var left0 := WalkOn(t0, [], up, [Name(root)], MAX_LINKS);
    var left := WalkOn(t, [], up, [Name(root)], MAX_LINKS);
    WalkShrinks(t, t0, [], up, MAX_LINKS);
    assert Resolve(t0, up) == Ok(Parent(q)) && q == Parent(q) + [Name(root)];
    assert [Name(root)][1..] == [];
  }

  /** The links a path follows. */
  function Followed(t: Tree, at: Path, rest: Path, links: nat): set<Path>
    decreases links, |rest|
  {
    if rest == [] then {}
    else
      var next := at + [rest[0]];
      if at !in t || t[at] != Dir || next !in t then {}
      else match t[next]
        case Symlink(target) => if links == 0 then {} else {next} + Followed(t, [], target + rest[1..], links - 1)
        case _ => Followed(t, next, rest[1..], links)
  }
}
