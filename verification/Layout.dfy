/**
 The metadata working set: the validator's bound on its size
 (crates/cvd-common/src/spec/validate.rs:362-408) and the builder that creates it
 layer by layer (crates/cvd-worker/src/prebuild/metadata.rs:126-193).
 */
module Layout {
  import opened FileTree

  const U64_MAX: nat := 0xFFFF_FFFF_FFFF_FFFF

  function Saturated(n: nat): nat { if n > U64_MAX then U64_MAX else n }

  function Pow(w: nat, k: nat): nat { if k == 0 then 1 else Pow(w, k - 1) * w }

  // The number of directories below the root, without a machine's limits.
  function Total(width: nat, depth: nat): nat {
    if depth == 0 then 0 else Total(width, depth - 1) + Pow(width, depth)
  }

  lemma SaturatedTimes(a: nat, w: nat)
    ensures Saturated(Saturated(a) * w) == Saturated(a * w)
  {
    if a > U64_MAX && w > 0 {
      assert U64_MAX * w >= U64_MAX && a * w >= a;
    }
  }

  lemma {:induction false} TotalGrows(width: nat, d: nat, e: nat)
    requires d <= e
    ensures Total(width, d) <= Total(width, e)
  {
    if d < e { TotalGrows(width, d, e - 1); }
  }

  /** `total_dirs`: the saturating loop, with its early exit, is the exact total cut off at the machine's maximum. */
  method TotalDirs(depth: nat, width: nat) returns (sum: nat)
    ensures sum == Saturated(Total(width, depth))
  {
    sum := 0;
    var layer: nat := 1;
    for i := 0 to depth
      invariant layer == Saturated(Pow(width, i)) && sum == Saturated(Total(width, i))
    {
      SaturatedTimes(Pow(width, i), width);
      layer := Saturated(layer * width);
      sum := Saturated(sum + layer);
      assert Total(width, i + 1) == Total(width, i) + Pow(width, i + 1);
      if sum == U64_MAX {
        TotalGrows(width, i + 1, depth);
        break;
      }
    }
  }

  datatype Violation = TooManyDirs | TooManyFiles

  /**
   The layout part of `validate_metadata`. The saturating arithmetic decides exactly,
   except that a cap of the machine's maximum is no cap.
   */
  method ValidateLayout(depth: nat, width: nat, filesPerDir: nat, maxDirs: nat, maxFiles: nat)
    returns (violations: seq<Violation>)
    requires maxDirs <= U64_MAX && maxFiles <= U64_MAX
    ensures TooManyDirs in violations <==> Total(width, depth) > maxDirs && maxDirs < U64_MAX
    ensures TooManyFiles in violations <==> Total(width, depth) * filesPerDir > maxFiles && maxFiles < U64_MAX
  {
    violations := [];
    if depth > 0 && width > 0 {
      var dirs := TotalDirs(depth, width);
      if dirs > maxDirs { violations := violations + [TooManyDirs]; }
      SaturatedTimes(Total(width, depth), filesPerDir);
      var files := Saturated(dirs * filesPerDir);
      if files > maxFiles { violations := violations + [TooManyFiles]; }
    } else {
      NoDirs(width, depth);
    }
  }

  lemma {:induction false} NoDirs(width: nat, depth: nat)
    requires width == 0 || depth == 0
    ensures Total(width, depth) == 0
  {
    if depth > 0 { NoDirs(width, depth - 1); }
  }

  // ------------------------------------------------------------------------ names

  function Digit(n: nat): char
    requires n < 10
  {
    "0123456789"[n]
  }

  function Decimal(n: nat): string { if n < 10 then [Digit(n)] else Decimal(n / 10) + [Digit(n % 10)] }

  function Zeros(n: nat): string { seq(n, _ => '0') }

  // `{:04}`: at least four digits, more when the number needs them.
  function Padded(n: nat): string {
    var s := Decimal(n);
    if |s| < 4 then Zeros(4 - |s|) + s else s
  }

  function Numeral(s: string): nat {
    if s == [] then 0
    else Numeral(s[..|s| - 1]) * 10 + (if '0' <= s[|s| - 1] <= '9' then (s[|s| - 1] - '0') as nat else 0)
  }

  lemma {:induction false} NumeralOfDecimal(n: nat)
    ensures Numeral(Decimal(n)) == n
  {
    if n >= 10 {
      NumeralOfDecimal(n / 10);
      assert Decimal(n)[..|Decimal(n)| - 1] == Decimal(n / 10);
    } else {
      assert Decimal(n)[..0] == [];
    }
  }

  lemma {:induction false} LeadingZeros(k: nat, s: string)
    ensures Numeral(Zeros(k) + s) == Numeral(s)
    decreases k + |s|
  {
    var z := Zeros(k) + s;
    if s != [] {
      LeadingZeros(k, s[..|s| - 1]);
      assert z[..|z| - 1] == Zeros(k) + s[..|s| - 1];
    } else if k > 0 {
      LeadingZeros(k - 1, s);
      assert z[..|z| - 1] == Zeros(k - 1) + s;
    } else {
      assert z == s;
    }
  }

  /** Numbered names never collide, also past four digits. */
  lemma PaddedIsInjective(a: nat, b: nat)
    requires Padded(a) == Padded(b)
    ensures a == b
  {
    NumeralOfDecimal(a);
    NumeralOfDecimal(b);
    if |Decimal(a)| < 4 { LeadingZeros(4 - |Decimal(a)|, Decimal(a)); }
    if |Decimal(b)| < 4 { LeadingZeros(4 - |Decimal(b)|, Decimal(b)); }
  }

  datatype Kind = DirKind | FileKind | TaskKind

  function Numbered(kind: Kind, i: nat): string {
    match kind
    case DirKind => "d_" + Padded(i)
    case FileKind => "f_" + Padded(i) + ".dat"
    case TaskKind => "t_" + Padded(i)
  }

  const TASKS := "_tasks"

  lemma NumberedIsInjective(k: Kind, i: nat, l: Kind, j: nat)
    ensures Numbered(k, i) == Numbered(l, j) ==> k == l && i == j
    ensures Numbered(k, i) != TASKS
  {
    assert Numbered(k, i)[0] != TASKS[0];
    if Numbered(k, i) == Numbered(l, j) {
      assert Numbered(k, i)[0] == Numbered(l, j)[0];
      var n := |Numbered(k, i)|;
      if k == FileKind {
        assert Padded(i) == Numbered(k, i)[2..n - 4] && Padded(j) == Numbered(l, j)[2..n - 4];
      } else {
        assert Padded(i) == Numbered(k, i)[2..] && Padded(j) == Numbered(l, j)[2..];
      }
      PaddedIsInjective(i, j);
    }
  }

  // ---------------------------------------------------------------------- builder

  // `count` numbered entries in each of the parents, parent by parent.
  function Expand(parents: seq<Path>, kind: Kind, count: nat): seq<Path> {
    if parents == [] then []
    else Expand(parents[..|parents| - 1], kind, count) + Entries(parents[|parents| - 1], kind, count)
  }

  function Entries(parent: Path, kind: Kind, count: nat): seq<Path> {
    seq(count, i requires 0 <= i < count => parent + [Numbered(kind, i)])
  }

  function Layer(root: Path, width: nat, level: nat): seq<Path> {
    if level == 0 then [root] else Expand(Layer(root, width, level - 1), DirKind, width)
  }

  function Dirs(root: Path, width: nat, depth: nat): seq<Path> {
    if depth == 0 then [] else Dirs(root, width, depth - 1) + Layer(root, width, depth)
  }

  method ExpandLayer(parents: seq<Path>, kind: Kind, count: nat) returns (out: seq<Path>)
    ensures out == Expand(parents, kind, count)
  {
    out := [];
    for p := 0 to |parents|
      invariant out == Expand(parents[..p], kind, count)
    {
      var own := EntriesOf(parents[p], kind, count);
      out := out + own;
      assert parents[..p + 1][..p] == parents[..p];
    }
    assert parents[..|parents|] == parents;
  }

  method EntriesOf(parent: Path, kind: Kind, count: nat) returns (out: seq<Path>)
    ensures out == Entries(parent, kind, count)
  {
    out := [];
    for i := 0 to count
      invariant out == Entries(parent, kind, count)[..i]
    {
      out := out + [parent + [Numbered(kind, i)]];
    }
  }

  /** `build`: what is created, in the order of creation, as the breadth-first loop finds it. */
  method Build(root: Path, depth: nat, width: nat, filesPerDir: nat, concurrency: nat)
    returns (dirs: seq<Path>, files: seq<Path>, taskRoots: seq<Path>)
    ensures dirs == Dirs(root, width, depth)
    ensures files == Expand(dirs, FileKind, filesPerDir)
    ensures taskRoots == Entries(root + [TASKS], TaskKind, concurrency)
  {
    dirs := [];
    var current := [root];
    for level := 0 to depth
      invariant current == Layer(root, width, level) && dirs == Dirs(root, width, level)
    {
      var next := ExpandLayer(current, DirKind, width);
      dirs := dirs + next;
      current := next;
    }
    files := ExpandLayer(dirs, FileKind, filesPerDir);
    taskRoots := EntriesOf(root + [TASKS], TaskKind, concurrency);
  }

  lemma {:induction false} ExpandLength(parents: seq<Path>, kind: Kind, count: nat)
    ensures |Expand(parents, kind, count)| == |parents| * count
  {
    if parents != [] {
      ExpandLength(parents[..|parents| - 1], kind, count);
      OneMore(|parents| - 1, count);
    }
  }

  lemma OneMore(n: nat, count: nat)
    ensures n * count + count == (n + 1) * count
  {}

  lemma {:induction false} LayerLength(root: Path, width: nat, level: nat)
    ensures |Layer(root, width, level)| == Pow(width, level)
  {
    if level > 0 {
      LayerLength(root, width, level - 1);
      ExpandLength(Layer(root, width, level - 1), DirKind, width);
    }
  }

  /** The builder creates exactly as many directories, and files, as the validator counted. */
  lemma {:induction false} BuildCounts(root: Path, width: nat, depth: nat, filesPerDir: nat)
    ensures |Dirs(root, width, depth)| == Total(width, depth)
    ensures |Expand(Dirs(root, width, depth), FileKind, filesPerDir)| == Total(width, depth) * filesPerDir
  {
    ExpandLength(Dirs(root, width, depth), FileKind, filesPerDir);
    if depth > 0 {
      BuildCounts(root, width, depth - 1, filesPerDir);
      LayerLength(root, width, depth);
    }
  }

  ghost predicate Distinct(ps: seq<Path>) { forall i, j | 0 <= i < j < |ps| :: ps[i] != ps[j] }

  ghost predicate Counted(p: Path, kind: Kind, count: nat)
    requires p != []
  {
    exists i: nat :: i < count && Name(p) == Numbered(kind, i)
  }

  lemma EntriesMembers(parent: Path, kind: Kind, count: nat, p: Path)
    ensures p in Entries(parent, kind, count) <==> p != [] && Parent(p) == parent && Counted(p, kind, count)
  {
    var own := Entries(parent, kind, count);
    hide Numbered;
    if p in own {
      var i :| 0 <= i < count && own[i] == p;
      assert Parent(p) == parent && Name(p) == Numbered(kind, i);
    }
    if p != [] && Parent(p) == parent && Counted(p, kind, count) {
      var i: nat :| i < count && Name(p) == Numbered(kind, i);
      assert own[i] == parent + [Numbered(kind, i)];
      assert parent + [Name(p)] == p;
    }
  }

  lemma {:induction false} ExpandMembers(parents: seq<Path>, kind: Kind, count: nat, p: Path)
    ensures p in Expand(parents, kind, count) <==> p != [] && Parent(p) in parents && Counted(p, kind, count)
  {
    hide Counted, Entries;
    if parents != [] {
      var n := |parents| - 1;
      ExpandMembers(parents[..n], kind, count, p);
      EntriesMembers(parents[n], kind, count, p);
      assert parents == parents[..n] + [parents[n]];
    }
  }

  lemma {:induction false} ExpandDistinct(parents: seq<Path>, kind: Kind, count: nat)
    requires Distinct(parents)
    ensures Distinct(Expand(parents, kind, count))
  {
    if parents != [] {
      var n := |parents| - 1;
      ExpandDistinct(parents[..n], kind, count);
      var front, own := Expand(parents[..n], kind, count), Entries(parents[n], kind, count);
      EntriesDistinct(parents[n], kind, count);
      assert parents[n] !in parents[..n];
      forall p | p in front ensures p !in own {
        ExpandMembers(parents[..n], kind, count, p);
        EntriesMembers(parents[n], kind, count, p);
      }
      DistinctAppend(front, own);
    }
  }

  lemma EntriesDistinct(parent: Path, kind: Kind, count: nat)
    ensures Distinct(Entries(parent, kind, count))
  {
    var own := Entries(parent, kind, count);
    forall i, j | 0 <= i < j < count ensures own[i] != own[j] {
      NumberedIsInjective(kind, i, kind, j);
      assert Name(own[i]) == Numbered(kind, i) && Name(own[j]) == Numbered(kind, j);
    }
  }

  lemma DistinctAppend(a: seq<Path>, b: seq<Path>)
    requires Distinct(a) && Distinct(b) && forall p | p in a :: p !in b
    ensures Distinct(a + b)
  {
    var c := a + b;
    forall i, j | 0 <= i < j < |c| ensures c[i] != c[j] {
      if i < |a| <= j { assert c[i] in a && c[j] in b; }
    }
  }

  // Members of a layer: `level` numbered directory names below the root.
  lemma {:induction false} LayerIs(root: Path, width: nat, level: nat)
    ensures Distinct(Layer(root, width, level))
    ensures forall p | p in Layer(root, width, level) :: root <= p && |p| == |root| + level
  {
    hide Expand, Counted;
    if level > 0 {
      hide Distinct;
      LayerIs(root, width, level - 1);
      ExpandDistinct(Layer(root, width, level - 1), DirKind, width);
      forall p | p in Layer(root, width, level) ensures root <= p && |p| == |root| + level {
        ExpandMembers(Layer(root, width, level - 1), DirKind, width, p);
      }
    }
  }

  // The last name tells what a path is.
  ghost predicate HasKind(p: Path, kind: Kind) { p != [] && exists i: nat :: Name(p) == Numbered(kind, i) }

  lemma OneKind(p: Path, k: Kind, l: Kind)
    requires HasKind(p, k)
    ensures HasKind(p, l) ==> k == l
    ensures Name(p) != TASKS
  {
    var i: nat :| Name(p) == Numbered(k, i);
    NumberedIsInjective(k, i, k, i);
    if HasKind(p, l) {
      var j: nat :| Name(p) == Numbered(l, j);
      NumberedIsInjective(k, i, l, j);
    }
  }

  lemma ExpandKind(parents: seq<Path>, kind: Kind, count: nat)
    ensures forall p | p in Expand(parents, kind, count) :: HasKind(p, kind) && Parent(p) in parents
  {
    hide Expand;
    forall p | p in Expand(parents, kind, count) ensures HasKind(p, kind) && Parent(p) in parents {
      ExpandMembers(parents, kind, count, p);
      var i: nat :| i < count && Name(p) == Numbered(kind, i);
    }
  }

  lemma EntriesKind(parent: Path, kind: Kind, count: nat)
    ensures forall p | p in Entries(parent, kind, count) :: HasKind(p, kind) && Parent(p) == parent
  {
    hide Entries;
    forall p | p in Entries(parent, kind, count) ensures HasKind(p, kind) && Parent(p) == parent {
      EntriesMembers(parent, kind, count, p);
      var i: nat :| i < count && Name(p) == Numbered(kind, i);
    }
  }

  lemma {:induction false} DirsAre(root: Path, width: nat, depth: nat)
    ensures Distinct(Dirs(root, width, depth))
    ensures forall p | p in Dirs(root, width, depth) :: root < p && |p| <= |root| + depth && HasKind(p, DirKind)
  {
    hide HasKind, Expand;
    if depth > 0 {
      DirsAre(root, width, depth - 1);
      LayerIs(root, width, depth);
      var before, layer := Dirs(root, width, depth - 1), Layer(root, width, depth);
      ExpandKind(Layer(root, width, depth - 1), DirKind, width);
      hide Layer, Distinct;
      DistinctAppend(before, layer);
    }
  }

  // Everything `build` creates below the root, in order.
  function Created(root: Path, width: nat, depth: nat, filesPerDir: nat, concurrency: nat): seq<Path> {
    var dirs := Dirs(root, width, depth);
    dirs + Expand(dirs, FileKind, filesPerDir) + [root + [TASKS]] + Entries(root + [TASKS], TaskKind, concurrency)
  }

  function Layers(root: Path, width: nat, depth: nat): seq<seq<Path>> {
    if depth == 0 then [] else Layers(root, width, depth - 1) + [Layer(root, width, depth)]
  }

  /**
   What `build` creates, batch by batch: the layers of directories, all the files, the task
   directory, the task roots. The members of one batch are created concurrently, in any order.
   */
  function Batches(root: Path, width: nat, depth: nat, filesPerDir: nat, concurrency: nat): seq<seq<Path>> {
    Layers(root, width, depth)
    + [Expand(Dirs(root, width, depth), FileKind, filesPerDir)]
    + [[root + [TASKS]]]
    + [Entries(root + [TASKS], TaskKind, concurrency)]
  }

  function Flat(batches: seq<seq<Path>>): seq<Path> {
    if batches == [] then [] else Flat(batches[..|batches| - 1]) + batches[|batches| - 1]
  }

  ghost predicate InEarlier(batches: seq<seq<Path>>, b: nat, p: Path) { exists a :: 0 <= a < b && a < |batches| && p in batches[a] }

  // Every path is below the root, and its parent is the root or lies in an earlier batch.
  ghost predicate ParentsEarlier(root: Path, batches: seq<seq<Path>>) {
    forall b: nat | b < |batches| :: CanBegin(root, batches, b)
  }

  ghost predicate CanBegin(root: Path, batches: seq<seq<Path>>, b: nat)
    requires b < |batches|
  {
    forall p | p in batches[b] :: p != [] && root < p && (Parent(p) == root || InEarlier(batches, b, Parent(p)))
  }

  lemma {:induction false} InFlat(batches: seq<seq<Path>>, p: Path)
    ensures p in Flat(batches) ==> InEarlier(batches, |batches|, p)
  {
    if batches != [] {
      var n := |batches| - 1;
      InFlat(batches[..n], p);
      if p in Flat(batches[..n]) {
        var a :| 0 <= a < n && p in batches[..n][a];
        assert p in batches[a];
      }
    }
  }

  lemma AddBatch(root: Path, batches: seq<seq<Path>>, batch: seq<Path>)
    requires ParentsEarlier(root, batches)
    requires forall p | p in batch :: p != [] && root < p && (Parent(p) == root || Parent(p) in Flat(batches))
    ensures ParentsEarlier(root, batches + [batch]) && Flat(batches + [batch]) == Flat(batches) + batch
  {
    var n, all := |batches|, batches + [batch];
    assert all[..n] == batches;
    forall b: nat | b < |all| ensures CanBegin(root, all, b) {
      forall p | p in all[b] ensures p != [] && root < p && (Parent(p) == root || InEarlier(all, b, Parent(p))) {
        if b < n { assert CanBegin(root, batches, b); } else { InFlat(batches, Parent(p)); }
        EarlierStays(batches, batch, b, Parent(p));
      }
    }
  }

  lemma EarlierStays(batches: seq<seq<Path>>, batch: seq<Path>, b: nat, p: Path)
    ensures InEarlier(batches, b, p) ==> InEarlier(batches + [batch], b, p)
  {
    if InEarlier(batches, b, p) {
      var a :| 0 <= a < b && a < |batches| && p in batches[a];
      assert p in (batches + [batch])[a];
    }
  }

  lemma LayerParents(root: Path, width: nat, depth: nat, p: Path)
    requires depth > 0 && p in Layer(root, width, depth)
    ensures p != [] && (Parent(p) == root || Parent(p) in Dirs(root, width, depth - 1))
  {
    hide Expand, Counted;
    ExpandMembers(Layer(root, width, depth - 1), DirKind, width, p);
  }

  lemma {:induction false} LayersEarlier(root: Path, width: nat, depth: nat)
    ensures ParentsEarlier(root, Layers(root, width, depth)) && Flat(Layers(root, width, depth)) == Dirs(root, width, depth)
  {
    hide ParentsEarlier, Flat, HasKind, Distinct, Layer;
    if depth == 0 {
      NoBatches(root);
    } else {
      LayersEarlier(root, width, depth - 1);
      DirsAre(root, width, depth);
      forall p | p in Layer(root, width, depth)
        ensures p != [] && root < p && (Parent(p) == root || Parent(p) in Dirs(root, width, depth - 1))
      {
        assert p in Dirs(root, width, depth);
        LayerParents(root, width, depth, p);
      }
      AddBatch(root, Layers(root, width, depth - 1), Layer(root, width, depth));
    }
  }

  lemma NoBatches(root: Path)
    ensures ParentsEarlier(root, []) && Flat([]) == []
  {}

  lemma NothingTwice(root: Path, width: nat, depth: nat, filesPerDir: nat, concurrency: nat)
    ensures Distinct(Created(root, width, depth, filesPerDir, concurrency))
  {
    var dirs, tasks := Dirs(root, width, depth), root + [TASKS];
    var files, taskRoots := Expand(dirs, FileKind, filesPerDir), Entries(tasks, TaskKind, concurrency);
    DirsAre(root, width, depth);
    ExpandDistinct(dirs, FileKind, filesPerDir);
    EntriesDistinct(tasks, TaskKind, concurrency);
    KindsApart(root, width, depth, filesPerDir, concurrency);
    assert Distinct([tasks]);
    hide Expand, Entries, Dirs, HasKind, Distinct;
    DistinctAppend(dirs, files);
    DistinctAppend(dirs + files, [tasks]);
    DistinctAppend(dirs + files + [tasks], taskRoots);
  }

  /**
   Started in an empty root, `build` never creates a path twice, and whatever the order within
   a batch it never creates one whose parent does not exist yet, so none of its calls fails for
   that reason.
   */
  lemma BuildNeverClashes(root: Path, width: nat, depth: nat, filesPerDir: nat, concurrency: nat)
    ensures Flat(Batches(root, width, depth, filesPerDir, concurrency)) == Created(root, width, depth, filesPerDir, concurrency)
    ensures Distinct(Created(root, width, depth, filesPerDir, concurrency))
    ensures ParentsEarlier(root, Batches(root, width, depth, filesPerDir, concurrency))
  {
    NothingTwice(root, width, depth, filesPerDir, concurrency);
    var dirs, tasks, layers := Dirs(root, width, depth), root + [TASKS], Layers(root, width, depth);
    var files, taskRoots := Expand(dirs, FileKind, filesPerDir), Entries(tasks, TaskKind, concurrency);
    LayersEarlier(root, width, depth);
    DirsAre(root, width, depth);
    ExpandKind(dirs, FileKind, filesPerDir);
    EntriesKind(tasks, TaskKind, concurrency);
    HasKindIsBelow();
    assert Parent(tasks) == root;
    hide Expand, Entries, Dirs, HasKind, Distinct, ParentsEarlier, Flat, Layers;
    ChildIsBelow(root);
    AddBatch(root, layers, files);
    AddBatch(root, layers + [files], [tasks]);
    AddBatch(root, layers + [files] + [[tasks]], taskRoots);
  }

  lemma ChildIsBelow(root: Path)
    ensures forall p: Path | p != [] && root <= Parent(p) :: root < p
  {}

  lemma HasKindIsBelow()
    ensures forall p, k | HasKind(p, k) :: p != []
  {}

  lemma KindsApart(root: Path, width: nat, depth: nat, filesPerDir: nat, concurrency: nat)
    ensures var dirs := Dirs(root, width, depth); var files := Expand(dirs, FileKind, filesPerDir);
      var tasks := root + [TASKS]; var taskRoots := Entries(tasks, TaskKind, concurrency);
      && (forall p | p in dirs :: p !in files && p != tasks && p !in taskRoots)
      && (forall p | p in files :: p != tasks && p !in taskRoots)
      && tasks !in taskRoots
  {
    var dirs := Dirs(root, width, depth);
    var tasks := root + [TASKS];
    DirsAre(root, width, depth);
    ExpandKind(dirs, FileKind, filesPerDir);
    EntriesKind(tasks, TaskKind, concurrency);
    assert Name(tasks) == TASKS;
    hide HasKind, Expand, Entries, Dirs, Numbered, Distinct;
    forall p, k | HasKind(p, k) ensures Name(p) != TASKS && forall l :: HasKind(p, l) ==> k == l {
      forall l ensures HasKind(p, l) ==> k == l { OneKind(p, k, l); }
      OneKind(p, k, k);
    }
  }

  /** A layout the validator accepts is built within its caps, unless a cap is the machine's maximum. */
  lemma ValidatedLayoutFits(root: Path, width: nat, depth: nat, filesPerDir: nat, maxDirs: nat, maxFiles: nat)
    requires maxDirs < U64_MAX && maxFiles < U64_MAX
    ensures Saturated(Total(width, depth)) <= maxDirs && Saturated(Saturated(Total(width, depth)) * filesPerDir) <= maxFiles
       <==> |Dirs(root, width, depth)| <= maxDirs && |Expand(Dirs(root, width, depth), FileKind, filesPerDir)| <= maxFiles
  {
    BuildCounts(root, width, depth, filesPerDir);
    SaturatedTimes(Total(width, depth), filesPerDir);
  }
}
