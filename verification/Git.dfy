/**
 The git objects the integrator builds and the ancestry test it reconciles by.
 A commit is its content, so two commits are the same object exactly when their
 content is the same; refs are kept by the modules that move them.
 */
module Git {
  import opened Basics

  datatype Commit = Commit(tree: string, parents: seq<Commit>, message: string, date: int)

  /** What `git merge-tree --write-tree` says of a (trunk, branch) pair. */
  datatype MergeOutcome = Clean(tree: string) | Conflict(summary: string) | Failed

  /** git's three-way merge: deterministic in the two commits, otherwise arbitrary. */
  type MergeTree = (Commit, Commit) -> MergeOutcome

  /** `git merge-base --is-ancestor a c`: a is c or reachable from c through parents. */
  predicate Ancestor(a: Commit, c: Commit)
    decreases c
  {
    a == c || exists i | 0 <= i < |c.parents| :: Ancestor(a, c.parents[i])
  }

  /** The commit is part of the history of a ref that may be unborn. */
  predicate InHistory(a: Commit, tip: Option<Commit>) {
    tip.Some? && Ancestor(a, tip.value)
  }

  /** Every commit reachable from the first ref is reachable from the second. */
  predicate HistoryKept(before: Option<Commit>, after: Option<Commit>) {
    before.Some? ==> InHistory(before.value, after)
  }

  lemma {:induction false} AncestorTransitive(a: Commit, b: Commit, c: Commit)
    requires Ancestor(a, b) && Ancestor(b, c)
    ensures Ancestor(a, c)
    decreases c
  {
    if b != c {
      var i :| 0 <= i < |c.parents| && Ancestor(b, c.parents[i]);
      AncestorTransitive(a, b, c.parents[i]);
    }
  }

  lemma HistoryKeptTransitive(x: Option<Commit>, y: Option<Commit>, z: Option<Commit>)
    requires HistoryKept(x, y) && HistoryKept(y, z)
    ensures HistoryKept(x, z)
  {
    if x.Some? {
      AncestorTransitive(x.value, y.value, z.value);
    }
  }

  lemma InHistoryKept(a: Commit, before: Option<Commit>, after: Option<Commit>)
    requires InHistory(a, before) && HistoryKept(before, after)
    ensures InHistory(a, after)
  {
    AncestorTransitive(a, before.value, after.value);
  }

  function Size(c: Commit): (n: nat)
    ensures n > 0
    decreases c
  {
    1 + SumSizes(c.parents)
  }

  function SumSizes(cs: seq<Commit>): nat
    decreases cs
  {
    if cs == [] then 0 else Size(cs[0]) + SumSizes(cs[1..])
  }

  lemma {:induction false} SizeOfElement(cs: seq<Commit>, i: nat)
    requires i < |cs|
    ensures Size(cs[i]) <= SumSizes(cs)
  {
    if i > 0 {
      SizeOfElement(cs[1..], i - 1);
    }
  }

  /** History is well founded: a proper ancestor is strictly smaller, so ancestry has no cycles. */
  lemma {:induction false} AncestorSmaller(a: Commit, c: Commit)
    requires Ancestor(a, c)
    ensures a == c || Size(a) < Size(c)
    decreases c
  {
    if a != c {
      var i :| 0 <= i < |c.parents| && Ancestor(a, c.parents[i]);
      AncestorSmaller(a, c.parents[i]);
      SizeOfElement(c.parents, i);
    }
  }

  // ---- validation and the merge commit ----------------------------------------

  datatype GateResult = Pass(tree: string) | Reject(reason: string) | GateError

  /** The merge gate: an unborn trunk adopts the branch's tree, otherwise the merge must be clean. */
  function Validate(mt: MergeTree, trunk: Option<Commit>, branch: Commit): GateResult {
    match trunk
    case None => Pass(branch.tree)
    case Some(t) =>
      match mt(t, branch)
      case Clean(tree) => Pass(tree)
      case Conflict(why) => Reject(why)
      case Failed => GateError
  }

  /** git merges the branch into the trunk without conflict, giving the tree; an unborn trunk takes the branch's own. */
  predicate MergesTo(mt: MergeTree, trunk: Option<Commit>, branch: Commit, tree: string) {
    if trunk.Some? then mt(trunk.value, branch) == Clean(tree) else tree == branch.tree
  }

  lemma PassesIffClean(mt: MergeTree, trunk: Option<Commit>, branch: Commit, tree: string)
    ensures Validate(mt, trunk, branch) == Pass(tree) <==> MergesTo(mt, trunk, branch, tree)
  {
  }

  const MESSAGE_PREFIX := "mad-trellis: integrate "
  const ID_TRAILER := "\n\nintegration-id: "

  function MergeMessage(id: string, branch: string): string {
    MESSAGE_PREFIX + branch + ID_TRAILER + id
  }

  /** A commit date: whole seconds of a clock reading in nanoseconds. */
  function WholeSeconds(at: int): int {
    at / 1_000_000_000
  }

  /** commit-tree with pinned identity and date: trunk first (when born), branch second. */
  function CommitMerge(tree: string, trunk: Option<Commit>, branch: Commit, message: string, at: int): Commit {
    Commit(tree, (if trunk.Some? then [trunk.value] else []) + [branch], message, WholeSeconds(at))
  }

  /** The ref names Submit accepts. */
  predicate ValidRef(s: string) {
    && s != "" && s[0] != '-'
    && (forall i | 0 <= i < |s| - 1 :: !(s[i] == '.' && s[i + 1] == '.') && !(s[i] == '@' && s[i + 1] == '{'))
    && (forall c | c in s :: RefChar(c))
  }

  predicate RefChar(c: char) {
    'a' <= c <= 'z' || 'A' <= c <= 'Z' || '0' <= c <= '9' || c == '/' || c == '.' || c == '-' || c == '_'
  }

  predicate Contains(s: string, part: string) {
    exists i | 0 <= i <= |s| :: part <= s[i..]
  }

  lemma PairAt(s: string, i: nat, x: char, y: char)
    requires i <= |s|
    ensures [x, y] <= s[i..] <==> i + 1 < |s| && s[i] == x && s[i + 1] == y
  {
  }

  lemma HasPair(s: string, x: char, y: char)
    ensures Contains(s, [x, y]) <==> exists i | 0 <= i < |s| - 1 :: s[i] == x && s[i + 1] == y
  {
    if Contains(s, [x, y]) {
      var i :| 0 <= i <= |s| && [x, y] <= s[i..];
      PairAt(s, i, x, y);
    }
    forall i | 0 <= i < |s| - 1 && s[i] == x && s[i + 1] == y ensures [x, y] <= s[i..] {
      PairAt(s, i, x, y);
    }
  }

  /** Which names are refs: not empty, no option, range or reflog; letters, digits, slash, dot, dash, underscore. */
  lemma RefRules(s: string)
    ensures ValidRef(s) <==>
              && s != "" && s[0] != '-' && !Contains(s, "..") && !Contains(s, "@{")
              && forall c | c in s :: c in "/.-_" || '0' <= c <= '9' || 'A' <= c <= 'Z' || 'a' <= c <= 'z'
  {
    HasPair(s, '.', '.');
    HasPair(s, '@', '{');
    assert ['.', '.'] == ".." && ['@', '{'] == "@{";
    forall c ensures RefChar(c) <==> c in "/.-_" || '0' <= c <= '9' || 'A' <= c <= 'Z' || 'a' <= c <= 'z' {
      assert "/.-_" == ['/', '.', '-', '_'];
    }
  }

  /** A commit carrying the integrator's message header. */
  predicate IsIntegration(c: Commit) {
    MESSAGE_PREFIX <= c.message
  }

  /** The first newline after the header of a message closes the branch name. */
  lemma MessageShape(id: string, branch: string)
    requires ValidRef(branch)
    ensures var m, p := MergeMessage(id, branch), |MESSAGE_PREFIX|;
            && m[p + |branch|] == '\n'
            && m[p..p + |branch|] == branch
            && m[p + |branch| + |ID_TRAILER|..] == id
            && (forall k | p <= k < p + |branch| :: m[k] != '\n')
  {
    var m, p := MergeMessage(id, branch), |MESSAGE_PREFIX|;
    forall k | p <= k < p + |branch| ensures m[k] != '\n' {
      assert m[k] == branch[k - p] && branch[k - p] in branch;
    }
  }

  /** The message names one integration: refs hold no newline, so branch and id can be read back. */
  lemma MergeMessageInjective(id1: string, branch1: string, id2: string, branch2: string)
    requires ValidRef(branch1) && ValidRef(branch2)
    ensures MergeMessage(id1, branch1) == MergeMessage(id2, branch2) <==> id1 == id2 && branch1 == branch2
  {
    if MergeMessage(id1, branch1) == MergeMessage(id2, branch2) {
      MessageShape(id1, branch1);
      MessageShape(id2, branch2);
      assert |branch1| == |branch2|;
    }
  }
}
