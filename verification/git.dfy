/**
 * Just enough git for an issue's working copy: commits as an inductive DAG with whole trees,
 * refs, HEAD, index, working tree, stash and the objects a copy has. The commands below are the
 * ones issue_workspaces.py runs. Paths that are both a file and a directory are not modelled.
 */
module Git {
  import opened Wrappers

  type Path = string
  type Branch = string
  datatype Blob = Blob(text: string)
  type Tree = map<Path, Blob>

  datatype Commit = Commit(parents: seq<Commit>, tree: Tree, message: string)

  datatype Head = On(branch: Branch) | Detached(commit: Commit)

  /**
   * What a killed command leaves in `.git`: the index's lock, a lock on HEAD or the branch it names,
   * one on the configuration, a rebase's directories, a cherry-pick's or revert's mark.
   */
  datatype Leftover = IndexLock | RefLock | ConfigLock | Rebase | Picking

  /** `merging` lists the commits of MERGE_HEAD: a merge begun and not committed. `tags` are names only. */
  datatype Copy = Copy(
    heads: map<Branch, Commit>, remotes: map<Branch, Commit>, temp: map<Branch, Commit>,
    head: Head, index: Tree, work: Tree, stash: seq<Tree>, leftovers: set<Leftover>,
    merging: seq<Commit>, tags: set<string>, objects: set<Commit>)

  /** GitHub, as a fetch sees it. */
  datatype Remote = Remote(branches: map<Branch, Commit>, default: Branch, tags: set<string>)

  // ------------------------------------------------------------------ history

  /** `c` is `tip` or one of its ancestors. */
  predicate Reaches(tip: Commit, c: Commit)
    decreases tip
  {
    tip == c || exists i :: 0 <= i < |tip.parents| && Reaches(tip.parents[i], c)
  }

  predicate OnRemote(remotes: map<Branch, Commit>, c: Commit) {
    exists b :: b in remotes && Reaches(remotes[b], c)
  }

  /** What `rev-list <tip> --not --remotes` lists: nothing exactly when some remote has the tip. */
  predicate Ahead(remotes: map<Branch, Commit>, tip: Commit) { !OnRemote(remotes, tip) }

  /** `base` lists the refs a bundle was made without: what they reach must be there already. */
  predicate Connected(tip: Commit, base: map<Branch, Commit>, objects: set<Commit>)
    decreases tip
  {
    if OnRemote(base, tip) then tip in objects
    else forall i :: 0 <= i < |tip.parents| ==> Connected(tip.parents[i], base, objects)
  }

  lemma {:induction false} ReachesTransitive(a: Commit, b: Commit, c: Commit)
    requires Reaches(a, b) && Reaches(b, c)
    ensures Reaches(a, c)
    decreases a
  {
    if a != b {
      var i :| 0 <= i < |a.parents| && Reaches(a.parents[i], b);
      ReachesTransitive(a.parents[i], b, c);
    }
  }

  // ------------------------------------------------------------------ trees and commands

  function HeadCommit(c: Copy): Option<Commit> {
    match c.head
    case Detached(k) => Some(k)
    case On(b) => if b in c.heads then Some(c.heads[b]) else None
  }

  function HeadTree(c: Copy): Tree {
    match HeadCommit(c) case None => map[] case Some(k) => k.tree
  }

  /** Put tracked files to `to`; files tracked before and no longer in `to` go, others stay. */
  function Overwrite(work: Tree, tracked: set<Path>, to: Tree): Tree { (work - tracked) + to }

  function ResetHard(c: Copy): Copy {
    var tree := HeadTree(c);
    c.(work := Overwrite(c.work, c.index.Keys, tree), index := tree)
  }

  /** `git clean -fd`: untracked files go unless they are ignored. */
  function Clean(c: Copy, ignored: set<Path>): Copy {
    c.(work := map p | p in c.work && (p in c.index || p in ignored) :: c.work[p])
  }

  /** `git checkout -f -B branch tip`. */
  function CheckoutForce(c: Copy, branch: Branch, tip: Commit): Copy {
    c.(heads := c.heads[branch := tip], head := On(branch),
    work := Overwrite(c.work, c.index.Keys, tip.tree), index := tip.tree)
  }

  /** What `git add -A` stages: every file that is tracked or not ignored. */
  function Staged(c: Copy, ignored: set<Path>): Tree {
    map p | p in c.work && (p in c.index || p !in ignored) :: c.work[p]
  }

  /** `git status --porcelain` has something to say. */
  predicate Dirty(c: Copy, ignored: set<Path>) { c.index != HeadTree(c) || Staged(c, ignored) != c.index }

  /** Every ancestor of a commit the copy has is there too, and every ref points at one. */
  ghost predicate Sound(c: Copy) {
    && (forall k, i :: k in c.objects && 0 <= i < |k.parents| ==> k.parents[i] in c.objects)
    && (forall b :: b in c.heads ==> c.heads[b] in c.objects)
    && (forall b :: b in c.remotes ==> c.remotes[b] in c.objects)
    && (c.head.Detached? ==> c.head.commit in c.objects)
    && (forall k :: k in c.merging ==> k in c.objects)
    && MergesOntoACommit(c)
  }

  /** git begins a merge only where there is a commit to merge into. */
  predicate MergesOntoACommit(c: Copy) { c.merging != [] ==> HeadCommit(c).Some? }

  lemma {:induction false} HasAncestors(objects: set<Commit>, tip: Commit, c: Commit)
    requires forall k, i :: k in objects && 0 <= i < |k.parents| ==> k.parents[i] in objects
    requires tip in objects && Reaches(tip, c)
    ensures c in objects
    decreases tip
  {
    if tip != c {
      var i :| 0 <= i < |tip.parents| && Reaches(tip.parents[i], c);
      HasAncestors(objects, tip.parents[i], c);
    }
  }

  /** A bundle made without refs whose commits the copy has always unpacks there. */
  lemma {:induction false} BundleConnects(tip: Commit, base: map<Branch, Commit>, objects: set<Commit>)
    requires forall k, i :: k in objects && 0 <= i < |k.parents| ==> k.parents[i] in objects
    requires forall b :: b in base ==> base[b] in objects
    ensures Connected(tip, base, objects)
    decreases tip
  {
    if OnRemote(base, tip) {
      var b :| b in base && Reaches(base[b], tip);
      HasAncestors(objects, base[b], tip);
    } else {
      forall i | 0 <= i < |tip.parents| ensures Connected(tip.parents[i], base, objects) {
        BundleConnects(tip.parents[i], base, objects);
      }
    }
  }

  // ------------------------------------------------------------------ _reset

  /** The local branches after the loop over `refs/heads/`: GitHub's, or gone. */
  function Matched(heads: map<Branch, Commit>, remotes: map<Branch, Commit>, keep: Branch): map<Branch, Commit> {
    map b | b in heads && (b == keep || b in remotes) :: if b == keep then heads[b] else remotes[b]
  }

  /** What is left of `_reset` once `reset --hard` has gone through. */
  function Forced(c: Copy, default: Branch, tip: Commit, ignored: set<Path>): Copy {
    var c2 := CheckoutForce(Clean(c, ignored).(stash := []), default, tip);
    c2.(heads := Matched(c2.heads, c2.remotes, default))
  }

  /** A tag of the same name makes git print a branch as `heads/<name>`, which `branch -D` does not find. */
  predicate Shadowed(tags: set<string>, branches: set<Branch>) { tags * branches != {} }

  /**
   * Nothing makes a command of `_reset` fail. It clears away what else a killed command leaves, but
   * no lock on a ref or the configuration, and no tag.
   */
  predicate CanReset(c: Copy, hub: Remote) {
    && ConfigLock !in c.leftovers && hub.default in hub.branches && RefLock !in c.leftovers
    && !Shadowed(c.tags + hub.tags, c.heads.Keys + {hub.default})
  }

  /** The whole of `_reset`; `fetched` is what came from GitHub. */
  function Reset(c: Copy, hub: Remote, ignored: set<Path>, fetched: set<Commit>): Copy
    requires CanReset(c, hub)
  {
    var tip := hub.branches[hub.default];
    var c1 := c.(leftovers := {}, merging := [], remotes := hub.branches, tags := c.tags + hub.tags,
      objects := c.objects + fetched);
    Forced(ResetHard(c1), hub.default, tip, ignored)
  }

  /** What a fetch brings: enough that every new ref and its history is there. */
  ghost predicate Fetches(c: Copy, hub: Remote, fetched: set<Commit>) {
    && (forall b :: b in hub.branches ==> hub.branches[b] in c.objects + fetched)
    && (forall k, i :: k in fetched && 0 <= i < |k.parents| ==> k.parents[i] in c.objects + fetched)
  }

  /** The copy is at GitHub's state: default branch, matching branches, nothing of its own tracked. */
  ghost predicate AtGitHub(r: Copy, hub: Remote)
    requires hub.default in hub.branches
  {
    var tip := hub.branches[hub.default];
    && r.head == On(hub.default) && HeadCommit(r) == Some(tip)
    && (forall b :: b in r.heads ==> b in hub.branches && r.heads[b] == hub.branches[b])
    && r.remotes == hub.branches && r.stash == [] && r.leftovers == {} && r.merging == []
    && r.index == tip.tree && (forall p :: p in tip.tree ==> p in r.work && r.work[p] == tip.tree[p])
  }

  /**
   * Reset correctness: HEAD is the default branch at GitHub's tip; every local branch is GitHub's;
   * nothing is stashed, staged or half-finished; tracked files are exactly the tip's; and what
   * else is left is exactly the untracked files git ignores, untouched.
   */
  lemma ResetForcesGitHub(c: Copy, hub: Remote, ignored: set<Path>, fetched: set<Commit>)
    requires CanReset(c, hub)
    ensures var r := Reset(c, hub, ignored, fetched);
            var tip := hub.branches[hub.default];
            && AtGitHub(r, hub)
            && (forall b :: b in r.heads <==> b == hub.default || (b in c.heads && b in hub.branches))
            && (forall p :: p in r.work && p !in tip.tree ==> p in ignored && p in c.work && r.work[p] == c.work[p])
            && (forall p :: p !in tip.tree ==>
                 (p in r.work <==> p in c.work && p in ignored && p !in c.index && p !in HeadTree(c)))
  {
  }

  /** A fresh copy of GitHub, as `prepare` makes when there is none or the reset failed. */
  function Cloned(hub: Remote, fetched: set<Commit>): Copy
    requires hub.default in hub.branches
  {
    var tip := hub.branches[hub.default];
    Copy(map[hub.default := tip], hub.branches, map[], On(hub.default), tip.tree, tip.tree, [], {}, [], hub.tags, fetched)
  }

  lemma ResetTwiceWork(c: Copy, hub: Remote, ignored: set<Path>, fetched: set<Commit>)
    requires CanReset(c, hub) && AtGitHub(c, hub)
    requires forall p :: p in c.work && p !in c.index ==> p in ignored
    ensures Reset(c, hub, ignored, fetched).work == c.work
  {
    var r := Reset(c, hub, ignored, fetched);
    forall p ensures p in r.work <==> p in c.work {}
  }

  /** A copy that was just reset is left alone by another reset against the same GitHub. */
  lemma ResetTwice(c: Copy, hub: Remote, ignored: set<Path>, fetched: set<Commit>, again: set<Commit>)
    requires CanReset(c, hub)
    ensures var r := Reset(c, hub, ignored, fetched);
            CanReset(r, hub) && Reset(r, hub, ignored, again) == r.(objects := r.objects + again)
  {
    var r := Reset(c, hub, ignored, fetched);
    assert r.tags + hub.tags == c.tags + hub.tags && r.heads.Keys <= c.heads.Keys + {hub.default};
    ResetForcesGitHub(c, hub, ignored, fetched);
    ResetTwiceWork(r, hub, ignored, again);
    assert Matched(r.heads[hub.default := hub.branches[hub.default]], hub.branches, hub.default) == r.heads;
    hide HeadTree, Overwrite, Clean;
  }

  lemma ResetKeepsSound(c: Copy, hub: Remote, ignored: set<Path>, fetched: set<Commit>)
    requires CanReset(c, hub) && Sound(c) && Fetches(c, hub, fetched)
    ensures Sound(Reset(c, hub, ignored, fetched)) && c.objects <= Reset(c, hub, ignored, fetched).objects
  {
    ResetForcesGitHub(c, hub, ignored, fetched);
  }

  // ------------------------------------------------------------------ save_wip

  const WIP := "factory: unfinished work, not pushed"
  const MAX_AGE := 3 * 86400

  /** `wip.json` and the bundle beside it: the branch tip, and the remote refs left out of it. */
  datatype Record = Record(branch: Branch, tip: Commit, base: map<Branch, Commit>, uncommitted: bool, savedAt: int)

  predicate FactoryBranch(b: Branch) { "factory/" <= b }
  predicate EpicBranch(b: Branch) { "factory/epic-" <= b }

  /** The branch is one whose unfinished work is kept; under a tag's shadow its name is not printed so. */
  predicate Keeps(c: Copy) {
    c.head.On? && c.head.branch !in c.tags && FactoryBranch(c.head.branch) && !EpicBranch(c.head.branch)
  }

  function WipCommit(c: Copy, ignored: set<Path>): Commit {
    Commit((match HeadCommit(c) case None => [] case Some(k) => [k]) + c.merging, Staged(c, ignored), WIP)
  }

  /** `commit` has nothing to commit; one that concludes a merge always has. */
  predicate NothingToCommit(c: Copy, ignored: set<Path>) { c.merging == [] && Staged(c, ignored) == HeadTree(c) }

  /** The copy once everything is staged and committed. */
  function Committed(c: Copy, ignored: set<Path>): Copy
    requires c.head.On?
  {
    var k := WipCommit(c, ignored);
    c.(index := Staged(c, ignored), heads := c.heads[c.head.branch := k], merging := [], leftovers := c.leftovers - {Picking},
    objects := c.objects + {k})
  }

  /** What `save_wip` leaves: the copy, and the record when there is one. */
  function Saved(c: Copy, ignored: set<Path>, now: int): (Copy, Option<Record>) {
    if !Keeps(c) then (c, None)
    else
      var b := c.head.branch;
      if !Dirty(c, ignored) then
        if b !in c.heads || !Ahead(c.remotes, c.heads[b]) then (c, None)
        else (c, Some(Record(b, c.heads[b], c.remotes, false, now)))
      else if IndexLock in c.leftovers then (c, None)
      else if RefLock in c.leftovers || NothingToCommit(c, ignored) then (c.(index := Staged(c, ignored)), None)
      else
        var d := Committed(c, ignored);
        if !Ahead(d.remotes, d.heads[b]) then (d, None)
        else (d, Some(Record(b, d.heads[b], d.remotes, true, now)))
  }

  /** The branch has commits no remote has. */
  ghost predicate Unpushed(c: Copy) {
    HeadCommit(c).Some? && forall b :: b in c.remotes ==> !Reaches(c.remotes[b], HeadCommit(c).value)
  }

  /** A file in the working tree that is tracked, or that git does not ignore. */
  predicate Visible(c: Copy, ignored: set<Path>, p: Path) { p in c.work && (p in c.index || p !in ignored) }

  /** Some file was written, added or taken away since HEAD, as far as git looks. */
  ghost predicate Edited(c: Copy, ignored: set<Path>) {
    exists p :: EditedAt(c, ignored, p)
  }

  predicate EditedAt(c: Copy, ignored: set<Path>, p: Path) {
    if p in HeadTree(c) then !Visible(c, ignored, p) || c.work[p] != HeadTree(c)[p] else Visible(c, ignored, p)
  }

  /** Git has something to show: an edit, or something staged. */
  ghost predicate Shows(c: Copy, ignored: set<Path>) { Edited(c, ignored) || c.index != HeadTree(c) }

  /** There is work to keep: an edit, a merge not yet committed, or unpushed commits. */
  ghost predicate HasWork(c: Copy, ignored: set<Path>) {
    Edited(c, ignored) || (c.index != HeadTree(c) && c.merging != []) || Unpushed(c)
  }

  /** Something is staged that the working tree has already taken back, and no merge is under way. */
  ghost predicate StagedThenUndone(c: Copy, ignored: set<Path>) {
    c.index != HeadTree(c) && !Edited(c, ignored) && c.merging == []
  }

  /** A killed command left a lock that staging or committing needs. */
  ghost predicate Locked(c: Copy, ignored: set<Path>) {
    Shows(c, ignored) && (IndexLock in c.leftovers || RefLock in c.leftovers)
  }

  /** A new commit on top of what the copy has is on no remote it has already fetched. */
  ghost predicate FreshWip(c: Copy, ignored: set<Path>) {
    forall b :: b in c.remotes ==> !Reaches(c.remotes[b], WipCommit(c, ignored))
  }

  /**
   * Exactly when unfinished work is kept: on a task branch with work, unless a killed command left a
   * lock in the way of staging or committing it, or something is staged that the working tree has
   * already taken back. Then a git command fails, and the branch's unpushed commits are dropped too.
   */
  lemma SavesExactlyWhen(c: Copy, ignored: set<Path>, now: int)
    requires FreshWip(c, ignored)
    ensures Saved(c, ignored, now).1.Some? <==>
      && c.head.On? && c.head.branch !in c.tags
      && "factory/" <= c.head.branch && !("factory/epic-" <= c.head.branch)
      && HasWork(c, ignored) && !Locked(c, ignored) && !StagedThenUndone(c, ignored)
  {
    StagesExactly(c, ignored);
    hide Staged, Edited;
  }

  /** What the commands look at is what was edited. */
  lemma StagesExactly(c: Copy, ignored: set<Path>)
    ensures Staged(c, ignored) == HeadTree(c) <==> !Edited(c, ignored)
    ensures Dirty(c, ignored) <==> Shows(c, ignored)
  {
    var staged, head := Staged(c, ignored), HeadTree(c);
    assert forall p :: p in staged <==> Visible(c, ignored, p);
    if !Edited(c, ignored) {
      forall p ensures p in staged <==> p in head { assert !EditedAt(c, ignored, p); }
      forall p | p in staged ensures staged[p] == head[p] { assert !EditedAt(c, ignored, p); }
    } else {
      var p :| EditedAt(c, ignored, p);
      assert p in staged <==> Visible(c, ignored, p);
    }
  }

  /** So any one file written, added or taken away is enough, with no lock in the way. */
  lemma OneEditIsKept(c: Copy, ignored: set<Path>, p: Path, now: int)
    requires FreshWip(c, ignored) && Keeps(c) && IndexLock !in c.leftovers && RefLock !in c.leftovers
    requires p !in ignored || p in c.index
    requires (p in c.work) != (p in HeadTree(c)) || (p in c.work && c.work[p] != HeadTree(c)[p])
    ensures Saved(c, ignored, now).1.Some?
  {
    SavesExactlyWhen(c, ignored, now);
    assert EditedAt(c, ignored, p);
  }

  /** There are unpushed commits and no lock, and they are not kept. */
  ghost predicate LostToUndoing(c: Copy, now: int) {
    && Keeps(c) && FreshWip(c, {}) && StagedThenUndone(c, {}) && !Locked(c, {}) && Unpushed(c)
    && Saved(c, {}, now).1.None?
  }

  /** One input on which unpushed commits are lost: a staged edit undone in the working tree. */
  lemma StagedThenUndoneLosesCommits(now: int)
    ensures exists c: Copy :: LostToUndoing(c, now)
  {
    var base := Commit([], map[], "base");
    var done := Commit([base], map["a" := Blob("1")], "work");
    var c := Copy(map["factory/7" := done], map["main" := base], map[], On("factory/7"),
                  map["a" := Blob("2")], map["a" := Blob("1")], [], {}, [], {}, {base, done});
    assert Staged(c, {}) == done.tree;
    assert c.index["a"] == Blob("2");
    assert c.index != HeadTree(c);
    assert Ahead(c.remotes, done);
    var wip := WipCommit(c, {});
    assert wip.parents == [done] && wip != base;
    assert Ahead(c.remotes, wip);
    assert LostToUndoing(c, now);
  }

  /** There is work, nothing is amiss but the lock, and it is not kept. */
  ghost predicate LostToLock(c: Copy, now: int) {
    && Keeps(c) && FreshWip(c, {}) && c.leftovers == {IndexLock} && HasWork(c, {}) && Unpushed(c)
    && Saved(c, {}, now).1.None? && Saved(c.(leftovers := {}), {}, now).1.Some?
  }

  /** The other: a command killed while it held the index, with edits and commits in the copy. */
  lemma LeftLockLosesWork(now: int)
    ensures exists c: Copy :: LostToLock(c, now)
  {
    var base := Commit([], map[], "base");
    var done := Commit([base], map["a" := Blob("1")], "work");
    var c := Copy(map["factory/7" := done], map["main" := base], map[], On("factory/7"),
                  map["a" := Blob("1")], map["a" := Blob("2")], [], {IndexLock}, [], {}, {base, done});
    assert Staged(c, {}) == map["a" := Blob("2")];
    assert Staged(c, {})["a"] == Blob("2") && HeadTree(c)["a"] == Blob("1");
    assert Ahead(c.remotes, done);
    var wip := WipCommit(c, {});
    assert wip.parents == [done] && wip != base;
    assert Ahead(c.remotes, wip);
    var d := c.(leftovers := {});
    assert Staged(d, {}) == Staged(c, {}) && WipCommit(d, {}) == wip && HeadTree(d) == HeadTree(c);
    assert Saved(d, {}, now).1.Some?;
    assert FreshWip(c, {}) && HasWork(c, {}) && Unpushed(c) && Keeps(c);
    assert LostToLock(c, now);
  }

  // ------------------------------------------------------------------ restore_wip

  /** What became of the kept work. */
  datatype Restored = NoRecord | Dropped | Back | Stuck

  function Unpacked(tip: Commit, base: map<Branch, Commit>): set<Commit>
    decreases tip
  {
    if OnRemote(base, tip) then {}
    else {tip} + set i, k | 0 <= i < |tip.parents| && k in Unpacked(tip.parents[i], base) :: k
  }

  /** The record may be used at all: a factory branch, not too old, and its bundle unpacks. */
  predicate Usable(c: Copy, r: Record, now: int) {
    FactoryBranch(r.branch) && now - r.savedAt <= MAX_AGE && Connected(r.tip, r.base, c.objects)
  }

  /** GitHub's copy of the branch is gone, or the kept work builds on it. */
  predicate Builds(c: Copy, r: Record) { r.branch in c.remotes ==> Reaches(r.tip, c.remotes[r.branch]) }

  /** `restore_wip` on a reset copy: the copy afterwards, and what became of the work. */
  function Restore(c: Copy, record: Option<Record>, now: int): (Copy, Restored) {
    if record.None? then (c, NoRecord)
    else
      var r := record.value;
      if !Usable(c, r, now) then (c, Dropped)
      else
        var got := c.(objects := c.objects + Unpacked(r.tip, r.base));
        if !Builds(c, r) then (got, Dropped)
        else
          var d := CheckoutForce(got, r.branch, r.tip);
          if !r.uncommitted then (d, Back)
          else if r.tip.parents == [] then (d, Stuck)
          else (d.(heads := d.heads[r.branch := r.tip.parents[0]], index := r.tip.parents[0].tree), Back)
  }

  /** What unpacking a bundle adds: exactly what `rev-list <tip> --not <base>` lists. */
  lemma {:induction false} UnpackedExactly(tip: Commit, base: map<Branch, Commit>, k: Commit)
    ensures k in Unpacked(tip, base) <==> Reaches(tip, k) && !OnRemote(base, k)
    decreases tip
  {
    if OnRemote(base, tip) {
      if Reaches(tip, k) { OnRemoteBelow(base, tip, k); }
    } else if tip != k {
      forall i | 0 <= i < |tip.parents| ensures k in Unpacked(tip.parents[i], base) <==> Reaches(tip.parents[i], k) && !OnRemote(base, k) {
        UnpackedExactly(tip.parents[i], base, k);
      }
    }
  }

  lemma OnRemoteBelow(remotes: map<Branch, Commit>, tip: Commit, k: Commit)
    requires OnRemote(remotes, tip) && Reaches(tip, k)
    ensures OnRemote(remotes, k)
  {
    var b :| b in remotes && Reaches(remotes[b], tip);
    ReachesTransitive(remotes[b], tip, k);
  }

  /** A bundle that unpacks leaves nothing missing below its tip. */
  lemma {:induction false} UnpackedIsWhole(tip: Commit, base: map<Branch, Commit>, objects: set<Commit>)
    requires Connected(tip, base, objects)
    ensures tip in objects + Unpacked(tip, base)
    ensures forall k, i :: k in Unpacked(tip, base) && 0 <= i < |k.parents| ==> k.parents[i] in objects + Unpacked(tip, base)
    decreases tip
  {
    if !OnRemote(base, tip) {
      forall i | 0 <= i < |tip.parents| ensures
        && tip.parents[i] in objects + Unpacked(tip, base)
        && forall k, j :: k in Unpacked(tip.parents[i], base) && 0 <= j < |k.parents| ==> k.parents[j] in objects + Unpacked(tip, base)
      {
        UnpackedIsWhole(tip.parents[i], base, objects);
      }
    }
  }

  lemma UnpackKeepsSound(c: Copy, r: Record)
    requires Sound(c) && Connected(r.tip, r.base, c.objects)
    ensures var got := c.(objects := c.objects + Unpacked(r.tip, r.base)); Sound(got) && r.tip in got.objects
  {
    UnpackedIsWhole(r.tip, r.base, c.objects);
    hide Unpacked, Connected;
  }

  lemma CheckoutKeepsSound(c: Copy, branch: Branch, tip: Commit)
    requires Sound(c) && c.merging == [] && tip in c.objects
    ensures Sound(CheckoutForce(c, branch, tip))
    ensures tip.parents != [] ==>
      var d := CheckoutForce(c, branch, tip);
      Sound(d.(heads := d.heads[branch := tip.parents[0]], index := tip.parents[0].tree))
  {
    hide Overwrite;
  }

  /** A restore leaves no commit without its history, nor a ref without its commit. */
  lemma RestoreKeepsSound(c: Copy, record: Option<Record>, now: int)
    requires Sound(c) && c.merging == []
    ensures Sound(Restore(c, record, now).0)
  {
    if record.Some? && Usable(c, record.value, now) {
      var r := record.value;
      UnpackKeepsSound(c, r);
      CheckoutKeepsSound(c.(objects := c.objects + Unpacked(r.tip, r.base)), r.branch, r.tip);
    }
    hide Sound, Connected, Unpacked, CheckoutForce;
  }

  /**
   * A kept piece of work either comes back, or - when it is stale, cannot be unpacked, or GitHub
   * moved the branch - the copy stays exactly as it was reset, but for objects no ref names. The
   * one other outcome is work committed on a branch that had no commit of its own to go back to.
   */
  lemma RestoreOutcomes(c: Copy, record: Option<Record>, now: int)
    ensures var (d, what) := Restore(c, record, now);
            && (what == NoRecord <==> record.None?)
            && (what == Dropped <==> record.Some? && !(Usable(c, record.value, now) && Builds(c, record.value)))
            && (what == Stuck <==>
                 record.Some? && Usable(c, record.value, now) && Builds(c, record.value)
                 && record.value.uncommitted && record.value.tip.parents == [])
            && (what.NoRecord? || what.Dropped? ==> d.(objects := c.objects) == c)
            && (what.Back? || what.Stuck? ==> d.head == On(record.value.branch))
  {
  }

  /** The tree is what the run left: each file that is tracked or not ignored, and no other. */
  ghost predicate IsWork(tree: Tree, c: Copy, ignored: set<Path>) {
    && (forall p :: p in tree <==> p in c.work && (p in c.index || p !in ignored))
    && forall p :: p in tree ==> tree[p] == c.work[p]
  }

  lemma SavedTip(c: Copy, ignored: set<Path>, now: int)
    requires Saved(c, ignored, now).1.Some?
    ensures var (d, record) := Saved(c, ignored, now);
            var r := record.value;
            && c.head == On(r.branch) && r.base == c.remotes == d.remotes && r.savedAt == now
            && IsWork(r.tip.tree, c, ignored)
            && (r.uncommitted ==> r.tip == WipCommit(c, ignored))
            && (!r.uncommitted ==> HeadCommit(c) == Some(r.tip) && c.index == r.tip.tree)
            && c.objects <= d.objects && FactoryBranch(r.branch)
  {
  }

  /** Work put back in a copy whose untracked files are all ignored is all there is to see. */
  lemma BackAsItWas(c: Copy, ignored: set<Path>, reset: Copy, r: Record, now: int)
    requires c.head == On(r.branch) && IsWork(r.tip.tree, c, ignored) && HeadCommit(c).Some?
    requires r.uncommitted ==> r.tip == WipCommit(c, ignored)
    requires !r.uncommitted ==> HeadCommit(c) == Some(r.tip)
    requires forall p :: p in reset.work && p !in reset.index ==> p in ignored
    requires Restore(reset, Some(r), now).1 == Back
    ensures var d := Restore(reset, Some(r), now).0;
            && d.head == c.head && HeadCommit(d) == HeadCommit(c) && d.index == HeadTree(c)
            && FilesAreBack(d, c, ignored)
  {
    hide Connected, Unpacked, Reaches;
  }

  /** A copy handed to a run: at GitHub's state, with nothing untracked but what git ignores. */
  ghost predicate Prepared(p: Copy, hub: Remote, ignored: set<Path>)
    requires hub.default in hub.branches
  {
    AtGitHub(p, hub) && forall q :: q in p.work && q !in p.index ==> q in ignored
  }

  /** Every file git tracks or does not ignore is as the run left it, and there is nothing else but ignored files. */
  ghost predicate FilesAreBack(d: Copy, c: Copy, ignored: set<Path>) {
    && (forall p :: p in c.work && (p in c.index || p !in ignored) ==> p in d.work && d.work[p] == c.work[p])
    && (forall p :: p in d.work && p !in ignored ==> p in c.work)
  }

  /** In `d` the run is back where it was saved: branch, commit and files. */
  ghost predicate BackWhereItWas(d: Copy, c: Copy, ignored: set<Path>) {
    d.head == c.head && HeadCommit(d) == HeadCommit(c) && d.index == HeadTree(c) && FilesAreBack(d, c, ignored)
  }

  /** In `d` the files are back, but as a first commit of their own on a branch that had none. */
  ghost predicate CommittedInstead(d: Copy, c: Copy, ignored: set<Path>) {
    && d.head == c.head && HeadCommit(d).Some? && HeadCommit(d).value.parents == []
    && IsWork(HeadCommit(d).value.tree, c, ignored) && d.index == HeadCommit(d).value.tree && FilesAreBack(d, c, ignored)
  }

  /** The kept work may be used in this copy: fresh, unpacking, and ahead of GitHub's branch if there is one. */
  predicate UsableThere(r: Record, hub: Remote, prepared: Copy, saved: int, now: int) {
    && now - saved <= MAX_AGE && Connected(r.tip, r.base, prepared.objects)
    && (r.branch in hub.branches ==> Reaches(r.tip, hub.branches[r.branch]))
  }

  /**
   * Kept work in any copy prepared afterwards. When the record is fresh, its bundle unpacks there and
   * GitHub's copy of the branch is gone or behind the kept tip, it comes back exactly if the branch had
   * a commit, and gets stuck as a commit exactly if it had none. Otherwise the copy is as prepared.
   */
  lemma WorkComesBack(c: Copy, ignored: set<Path>, hub: Remote, prepared: Copy, saved: int, now: int)
    requires MergesOntoACommit(c) && Saved(c, ignored, saved).1.Some?
    requires hub.default in hub.branches && Prepared(prepared, hub, ignored)
    ensures var record := Saved(c, ignored, saved).1;
            var usable := UsableThere(record.value, hub, prepared, saved, now);
            var (d, what) := Restore(prepared, record, now);
            && (what == Back <==> usable && HeadCommit(c).Some?)
            && (what == Stuck <==> usable && HeadCommit(c).None?)
            && (what == Back ==> BackWhereItWas(d, c, ignored))
            && (what == Stuck ==> CommittedInstead(d, c, ignored))
            && (!usable ==> d.(objects := prepared.objects) == prepared)
  {
    var record := Saved(c, ignored, saved).1;
    SavedTip(c, ignored, saved);
    UnbornIsUncommitted(c, ignored, saved);
    hide Saved, Restore, Connected, Reaches, Ahead, OnRemote;
    RestoreOutcomes(prepared, record, now);
    if Restore(prepared, record, now).1 == Back { BackAsItWas(c, ignored, prepared, record.value, now); }
    if Restore(prepared, record, now).1 == Stuck { StuckAsCommitted(c, ignored, prepared, record.value, now); }
  }

  lemma UnbornIsUncommitted(c: Copy, ignored: set<Path>, now: int)
    requires Saved(c, ignored, now).1.Some?
    ensures HeadCommit(c).None? ==> Saved(c, ignored, now).1.value.uncommitted
  {
  }

  lemma StuckAsCommitted(c: Copy, ignored: set<Path>, prepared: Copy, r: Record, now: int)
    requires c.head == On(r.branch) && IsWork(r.tip.tree, c, ignored)
    requires forall p :: p in prepared.work && p !in prepared.index ==> p in ignored
    requires Restore(prepared, Some(r), now).1 == Stuck
    ensures CommittedInstead(Restore(prepared, Some(r), now).0, c, ignored)
  {
    hide Connected, Unpacked, Reaches;
  }

  /**
   * The round trip: save, any reset that goes through, restore. With the record fresh and GitHub's
   * copy of the branch gone or behind the kept tip, the run's branch is at the commit it was on, with
   * every file that is not ignored as the run left it and nothing else besides - or, if the branch had
   * no commit yet, at one that holds them. Otherwise the copy is as the reset made it.
   */
  lemma WorkSurvivesReset(c: Copy, ignored: set<Path>, hub: Remote, fetched: set<Commit>, saved: int, now: int)
    requires Sound(c) && Saved(c, ignored, saved).1.Some?
    requires CanReset(Saved(c, ignored, saved).0, hub)
    requires Fetches(Saved(c, ignored, saved).0, hub, fetched)
    ensures var (kept, record) := Saved(c, ignored, saved);
            var r := record.value;
            var reset := Reset(kept, hub, ignored, fetched);
            var usable := now - saved <= 3 * 86400 && (r.branch in hub.branches ==> Reaches(r.tip, hub.branches[r.branch]));
            var (d, what) := Restore(reset, record, now);
            && (what == Back <==> usable && HeadCommit(c).Some?)
            && (what == Stuck <==> usable && HeadCommit(c).None?)
            && (what == Back ==> BackWhereItWas(d, c, ignored))
            && (what == Stuck ==> CommittedInstead(d, c, ignored))
            && (!usable ==> d.(objects := reset.objects) == reset)
  {
    var (kept, record) := Saved(c, ignored, saved);
    var r := record.value;
    SavedTip(c, ignored, saved);
    SaveKeepsSound(c, ignored, saved);
    var reset := Reset(kept, hub, ignored, fetched);
    ResetForcesGitHub(kept, hub, ignored, fetched);
    ResetKeepsSound(kept, hub, ignored, fetched);
    BundleConnects(r.tip, r.base, reset.objects);
    hide Saved, Reset, Restore, Connected, Reaches, Fetches, WipCommit, Ahead, OnRemote;
    WorkComesBack(c, ignored, hub, reset, saved, now);
  }

  lemma SavedCopy(c: Copy, ignored: set<Path>, now: int)
    requires Saved(c, ignored, now).1.Some?
    ensures var (d, record) := Saved(c, ignored, now);
            d.work == c.work && d.index == HeadTree(d) == record.value.tip.tree
  {
  }

  lemma RestoredWork(c: Copy, record: Record, now: int)
    requires Restore(c, Some(record), now).1.Back? || Restore(c, Some(record), now).1.Stuck?
    ensures Restore(c, Some(record), now).0.work == Overwrite(c.work, c.index.Keys, record.tip.tree)
  {
  }

  /**
   * The working tree after the round trip, to the last file: all that was in it, but for ignored
   * untracked files at paths GitHub's default branch tracks.
   */
  lemma TreeAfterRoundTrip(c: Copy, ignored: set<Path>, hub: Remote, fetched: set<Commit>, saved: int, now: int)
    requires Saved(c, ignored, saved).1.Some? && CanReset(Saved(c, ignored, saved).0, hub)
    ensures var (kept, record) := Saved(c, ignored, saved);
            var (d, what) := Restore(Reset(kept, hub, ignored, fetched), record, now);
            var main := hub.branches[hub.default].tree;
            what.Back? || what.Stuck? ==>
              && (forall p :: p in d.work <==> p in c.work && (p in c.index || p !in ignored || p !in main))
              && forall p :: p in d.work ==> d.work[p] == c.work[p]
  {
    var (kept, record) := Saved(c, ignored, saved);
    SavedTip(c, ignored, saved);
    SavedCopy(c, ignored, saved);
    var reset := Reset(kept, hub, ignored, fetched);
    ResetForcesGitHub(kept, hub, ignored, fetched);
    if Restore(reset, record, now).1.Back? || Restore(reset, record, now).1.Stuck? { RestoredWork(reset, record.value, now); }
    hide Saved, Reset, Restore, CanReset;
  }

  lemma SavedBuildsOnHead(c: Copy, ignored: set<Path>, now: int)
    requires Saved(c, ignored, now).1.Some? && HeadCommit(c).Some?
    ensures Reaches(Saved(c, ignored, now).1.value.tip, HeadCommit(c).value)
  {
    var r := Saved(c, ignored, now).1.value;
    SavedTip(c, ignored, now);
    var head := HeadCommit(c).value;
    assert Reaches(head, head);
    if r.uncommitted { assert r.tip.parents[0] == head; }
  }

  /** Work always comes back within three days while GitHub's branch is where the run's branch was, or not there yet. */
  lemma UnmovedBranchTakesItBack(c: Copy, ignored: set<Path>, hub: Remote, fetched: set<Commit>, saved: int, now: int)
    requires Sound(c) && Saved(c, ignored, saved).1.Some? && HeadCommit(c).Some?
    requires CanReset(Saved(c, ignored, saved).0, hub) && Fetches(Saved(c, ignored, saved).0, hub, fetched)
    requires now <= saved + 3 * 86400
    requires c.head.branch in hub.branches ==> Some(hub.branches[c.head.branch]) == HeadCommit(c)
    ensures var (kept, record) := Saved(c, ignored, saved);
            var (d, what) := Restore(Reset(kept, hub, ignored, fetched), record, now);
            what == Back && BackWhereItWas(d, c, ignored)
  {
    SavedTip(c, ignored, saved);
    SavedBuildsOnHead(c, ignored, saved);
    hide Saved, Reset, Restore, CanReset, Fetches, Sound, BackWhereItWas, Reaches, WipCommit;
    WorkSurvivesReset(c, ignored, hub, fetched, saved, now);
  }

  /** When the reset fails the run gets a fresh clone: the same, if the bundle unpacks there. */
  lemma WorkSurvivesClone(c: Copy, ignored: set<Path>, hub: Remote, fetched: set<Commit>, saved: int, now: int)
    requires MergesOntoACommit(c) && Saved(c, ignored, saved).1.Some? && hub.default in hub.branches
    ensures var record := Saved(c, ignored, saved).1;
            var clone := Cloned(hub, fetched);
            var usable := UsableThere(record.value, hub, clone, saved, now);
            var (d, what) := Restore(clone, record, now);
            && (what == Back <==> usable && HeadCommit(c).Some?)
            && (what == Stuck <==> usable && HeadCommit(c).None?)
            && (what == Back ==> BackWhereItWas(d, c, ignored))
            && (what == Stuck ==> CommittedInstead(d, c, ignored))
            && (!usable ==> d.(objects := clone.objects) == clone)
  {
    WorkComesBack(c, ignored, hub, Cloned(hub, fetched), saved, now);
  }

  /** A branch with edits and no commit: its work is saved. */
  ghost predicate UnbornAndSaved(c: Copy, now: int) {
    Sound(c) && Keeps(c) && HeadCommit(c).None? && Saved(c, {}, now).1.Some?
  }

  /** So work can get stuck: a task branch begun without a commit is saved like any other. */
  lemma FirstCommitIsSaved(now: int)
    ensures exists c: Copy :: UnbornAndSaved(c, now)
  {
    var c := Copy(map[], map[], map[], On("factory/7"), map[], map["a" := Blob("1")], [], {}, [], {}, {});
    assert Staged(c, {})["a"] == Blob("1");
    assert Dirty(c, {}) && !NothingToCommit(c, {});
    assert Ahead(c.remotes, WipCommit(c, {}));
    assert UnbornAndSaved(c, now);
  }

  lemma SaveKeepsSound(c: Copy, ignored: set<Path>, now: int)
    requires Sound(c)
    ensures Sound(Saved(c, ignored, now).0)
  {
  }

  // ------------------------------------------------------------------ as the code runs it

  lemma ClearsOnly(c: Copy, ignored: set<Path>)
    ensures var d := ResetHard(c);
            && d.heads == c.heads && d.head == c.head && d.remotes == c.remotes && d.tags == c.tags
            && d.leftovers == c.leftovers && d.merging == c.merging
    ensures var d := Clean(ResetHard(c), ignored); d.remotes == c.remotes && d.heads == c.heads && d.leftovers == c.leftovers
  {
  }

  lemma CleanKeepsRefs(c: Copy, ignored: set<Path>)
    ensures Clean(c, ignored).heads == c.heads && Clean(c, ignored).tags == c.tags && Clean(c, ignored).remotes == c.remotes
  {
  }

  class WorkingCopy {
    const ignored: set<Path>
    var heads: map<Branch, Commit>
    var remotes: map<Branch, Commit>
    var temp: map<Branch, Commit>
    var head: Head
    var index: Tree
    var work: Tree
    var stash: seq<Tree>
    var leftovers: set<Leftover>
    var merging: seq<Commit>
    var tags: set<string>
    var objects: set<Commit>
    /** The `wip` directory beside the copy. */
    var wip: Option<Record>

    function Now(): Copy
      reads this
    {
      Copy(heads, remotes, temp, head, index, work, stash, leftovers, merging, tags, objects)
    }

    method Become(c: Copy)
      modifies this
      ensures Now() == c && wip == old(wip)
    {
      heads, remotes, temp, head := c.heads, c.remotes, c.temp, c.head;
      index, work, stash, leftovers := c.index, c.work, c.stash, c.leftovers;
      merging, tags, objects := c.merging, c.tags, c.objects;
    }

    /** The loop over the local branches: GitHub's commit, or gone; it stops at one a tag hides. */
    method MatchBranches(default: Branch) returns (ok: bool)
      requires default in heads
      modifies this`heads
      ensures ok <==> !Shadowed(tags, old(heads).Keys)
      ensures ok ==> heads == Matched(old(heads), remotes, default)
    {
      var names := heads.Keys;
      ghost var before := heads;
      while names != {}
        invariant names <= before.Keys && heads.Keys <= before.Keys
        invariant forall b :: b in before && b !in names ==> b !in tags
        invariant forall b :: b in names || b == default ==> b in heads && heads[b] == before[b]
        invariant forall b :: b in before && b !in names && b != default ==>
          (b in heads <==> b in remotes) && (b in heads ==> heads[b] == remotes[b])
        decreases names
      {
        var branch :| branch in names;
        names := names - {branch};
        if branch in tags {
          assert branch in tags * before.Keys;
          return false;
        }
        if branch != default {
          heads := if branch in remotes then heads[branch := remotes[branch]] else heads - {branch};
        }
      }
      assert heads == Matched(before, remotes, default);
      ok := true;
    }

    /** What is left of `_reset` once `reset --hard` has gone through. */
    method ForceTo(default: Branch, tip: Commit) returns (ok: bool)
      modifies this
      ensures ok <==> !Shadowed(old(tags), old(heads).Keys + {default})
      ensures ok ==> Now() == Forced(old(Now()), default, tip, ignored)
      ensures wip == old(wip)
    {
      hide Clean, Overwrite, Matched, Shadowed;
      Become(Clean(Now(), ignored));
      stash := [];
      Become(CheckoutForce(Now(), default, tip));
      assert heads.Keys == old(heads).Keys + {default} && tags == old(tags) by { CleanKeepsRefs(old(Now()), ignored); }
      ok := MatchBranches(default);
    }

    /**
     * `_reset`: false when a git command fails - for want of an answer or a default branch, at a lock,
     * or at a branch a tag hides.
     */
    method ResetToGitHub(hub: Option<Remote>, fetched: set<Commit>) returns (ok: bool)
      modifies this
      ensures ok <==> hub.Some? && CanReset(old(Now()), hub.value)
      ensures ok ==> Now() == Reset(old(Now()), hub.value, ignored, fetched)
      ensures ConfigLock in old(leftovers) || hub.None? || hub.value.default !in hub.value.branches
        ==> heads == old(heads) && head == old(head) && index == old(index) && work == old(work)
      ensures RefLock in old(leftovers) ==> heads == old(heads) && head == old(head)
      ensures wip == old(wip)
    {
      hide ResetHard, Forced, Shadowed;
      var refLocked := RefLock in leftovers;
      var configLocked := ConfigLock in leftovers;
      leftovers, merging := leftovers * {RefLock, ConfigLock}, [];
      assert !refLocked && !configLocked ==> leftovers == {};
      if configLocked { return false; }
      if hub.None? { return false; }
      remotes, tags, objects := hub.value.branches, tags + hub.value.tags, objects + fetched;
      if hub.value.default !in remotes { return false; }
      var default, tip := hub.value.default, remotes[hub.value.default];
      ClearsOnly(Now(), ignored);
      Become(ResetHard(Now()));
      if refLocked { return false; }
      assert heads == old(heads) && tags == old(tags) + hub.value.tags;
      ok := ForceTo(default, tip);
    }

    /** `prepare`: reset the copy, and throw it away for a fresh one if that fails. */
    method Prepare(present: bool, hub: Option<Remote>, mirror: Remote, fetched: set<Commit>)
      requires mirror.default in mirror.branches
      modifies this
      ensures present && hub.Some? && CanReset(old(Now()), hub.value) ==> AtGitHub(Now(), hub.value)
      ensures !(present && hub.Some? && CanReset(old(Now()), hub.value)) ==> Now() == Cloned(mirror, fetched) && AtGitHub(Now(), mirror)
      ensures wip == old(wip)
    {
      var ok := false;
      if present {
        ghost var was := Now();
        ok := ResetToGitHub(hub, fetched);
        if ok { ResetForcesGitHub(was, hub.value, ignored, fetched); }
      }
      if !ok { Become(Cloned(mirror, fetched)); }
    }

    /** `save_wip`: whatever was kept before is dropped first. */
    method SaveWip(now: int) returns (kept: bool)
      modifies this
      ensures (Now(), wip) == Saved(old(Now()), ignored, now)
      ensures kept <==> wip.Some?
    {
      hide Ahead, Staged, Reaches, WipCommit, HeadTree, Dirty;
      wip := None;
      if head.Detached? { return false; }
      var branch := head.branch;
      if branch in tags { return false; }
      if !("factory/" <= branch) || "factory/epic-" <= branch { return false; }
      var committed := false;
      if Dirty(Now(), ignored) {
        if IndexLock in leftovers { return false; }
        var wasHead := HeadTree(Now());
        var commit := WipCommit(Now(), ignored);
        index := Staged(Now(), ignored);
        if RefLock in leftovers { return false; }
        if merging == [] && index == wasHead { return false; }
        heads, objects := heads[branch := commit], objects + {commit};
        merging, leftovers := [], leftovers - {Picking};
        committed := true;
      }
      if branch !in heads || !Ahead(remotes, heads[branch]) { return false; }
      wip := Some(Record(branch, heads[branch], remotes, committed, now));
      kept := true;
    }

    /** `restore_wip`: anything but success drops the record; the temporary ref never stays. */
    method RestoreWip(now: int) returns (what: Restored)
      requires temp == map[]
      modifies this
      ensures (Now(), what) == Restore(old(Now()), old(wip), now)
      ensures wip == if what.Back? then old(wip) else None
    {
      hide Reaches, Connected, Unpacked, Overwrite;
      if wip.None? { return NoRecord; }
      var r := wip.value;
      if !("factory/" <= r.branch) || now - r.savedAt > MAX_AGE { wip := None; return Dropped; }
      if !Connected(r.tip, r.base, objects) { wip := None; return Dropped; }
      objects := objects + Unpacked(r.tip, r.base);
      temp := temp[r.branch := r.tip];
      if r.branch in remotes && !Reaches(temp[r.branch], remotes[r.branch]) {
        temp := temp - {r.branch};
        wip := None;
        return Dropped;
      }
      Become(CheckoutForce(Now(), r.branch, temp[r.branch]));
      what := Back;
      if r.uncommitted {
        if r.tip.parents == [] {
          what := Stuck;
          wip := None;
        } else {
          heads, index := heads[r.branch := r.tip.parents[0]], r.tip.parents[0].tree;
        }
      }
      temp := temp - {r.branch};
    }
  }
}
