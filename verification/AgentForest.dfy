/** The parent forest of the registered agents, as values (core/src/registry.rs). */
module AgentForest {
  import opened Prelude

  /** The fields the forest depends on; `details` stands for the others. */
  datatype Agent = Agent(slug: string, parent: Option<string>, remote: bool, details: string)

  type Agents = seq<Agent>

  function Find(agents: Agents, slug: string): (r: Option<Agent>)
    ensures r.Some? ==> r.value in agents && r.value.slug == slug
    ensures r.None? ==> forall a <- agents :: a.slug != slug
  {
    if agents == [] then None else if agents[0].slug == slug then Some(agents[0]) else Find(agents[1..], slug)
  }

  predicate Registered(agents: Agents, slug: string) {
    Find(agents, slug).Some?
  }

  ghost predicate UniqueSlugs(agents: Agents) {
    forall i, j :: 0 <= i < j < |agents| ==> agents[i].slug != agents[j].slug
  }

  lemma {:induction false} Finds(agents: Agents, a: Agent)
    requires UniqueSlugs(agents) && a in agents
    ensures Find(agents, a.slug) == Some(a)
  {
    if agents[0] != a {
      var k :| 0 <= k < |agents| && agents[k] == a;
      assert agents[1..][k - 1] == a;
      Finds(agents[1..], a);
    }
  }

  function ParentOf(agents: Agents, slug: string): Option<string> {
    var a := Find(agents, slug);
    if a.Some? then a.value.parent else None
  }

  /** `k` parent hops up from `slug`. */
  function Up(agents: Agents, slug: string, k: nat): Option<string>
    decreases k
  {
    if k == 0 then Some(slug)
    else
      var p := ParentOf(agents, slug);
      if p.None? then None else Up(agents, p.value, k - 1)
  }

  ghost predicate OnCycle(agents: Agents, slug: string) {
    exists k :: k > 0 && Up(agents, slug, k) == Some(slug)
  }

  ghost predicate IsDescendant(agents: Agents, slug: string, of: string) {
    exists k :: k > 0 && Up(agents, slug, k) == Some(of)
  }

  lemma {:induction false} UpTwice(agents: Agents, slug: string, i: nat, j: nat)
    ensures Up(agents, slug, i + j)
         == var mid := Up(agents, slug, i); if mid.None? then None else Up(agents, mid.value, j)
    decreases i
  {
    if i > 0 {
      var p := ParentOf(agents, slug);
      if p.Some? {
        UpTwice(agents, p.value, i - 1, j);
      }
    }
  }

  // ── Children, level by level ────────────────────────────────────────────────

  /** `direct_children` */
  function Children(agents: Agents, slug: string): seq<string> {
    if agents == [] then []
    else (if agents[0].parent == Some(slug) then [agents[0].slug] else []) + Children(agents[1..], slug)
  }

  /** The children of all of them, in order. */
  function AllChildren(agents: Agents, frontier: seq<string>): seq<string> {
    if frontier == [] then [] else Children(agents, frontier[0]) + AllChildren(agents, frontier[1..])
  }

  function Level(agents: Agents, slug: string, k: nat): seq<string> {
    if k == 0 then Children(agents, slug) else AllChildren(agents, Level(agents, slug, k - 1))
  }

  /** All levels in one list, the last one first. */
  function Flattened(levels: seq<seq<string>>): seq<string> {
    if levels == [] then [] else levels[|levels| - 1] + Flattened(levels[..|levels| - 1])
  }

  predicate NoRepeats(slugs: seq<string>) {
    forall i, j :: 0 <= i < j < |slugs| ==> slugs[i] != slugs[j]
  }

  lemma NoRepeatsConcat(a: seq<string>, b: seq<string>)
    requires NoRepeats(a) && NoRepeats(b) && forall x <- a :: x !in b
    ensures NoRepeats(a + b)
  {
    forall i, j | 0 <= i < j < |a + b| ensures (a + b)[i] != (a + b)[j] {
      if i < |a| <= j {
        assert a[i] in a && b[j - |a|] in b;
      }
    }
  }

  lemma {:induction false} ChildrenAre(agents: Agents, slug: string)
    requires UniqueSlugs(agents)
    ensures NoRepeats(Children(agents, slug))
    ensures forall x :: x in Children(agents, slug) <==>
              exists a :: a in agents && a.slug == x && a.parent == Some(slug)
  {
    if agents != [] {
      var rest := agents[1..];
      ChildrenAre(rest, slug);
      assert agents == [agents[0]] + rest;
      var first := if agents[0].parent == Some(slug) then [agents[0].slug] else [];
      forall x | x in first ensures x !in Children(rest, slug) {
        assert forall a <- rest :: a.slug != agents[0].slug;
      }
      NoRepeatsConcat(first, Children(rest, slug));
    }
  }

  lemma ChildrenHaveParent(agents: Agents, slug: string, x: string)
    requires UniqueSlugs(agents)
    ensures x in Children(agents, slug) <==> ParentOf(agents, x) == Some(slug)
  {
    ChildrenAre(agents, slug);
    if x in Children(agents, slug) {
      var a :| a in agents && a.slug == x && a.parent == Some(slug);
      Finds(agents, a);
    }
  }

  lemma {:induction false} AllChildrenAre(agents: Agents, frontier: seq<string>)
    requires UniqueSlugs(agents) && NoRepeats(frontier)
    ensures NoRepeats(AllChildren(agents, frontier))
    ensures forall x :: x in AllChildren(agents, frontier) <==>
              ParentOf(agents, x).Some? && ParentOf(agents, x).value in frontier
  {
    if frontier != [] {
      var rest := frontier[1..];
      AllChildrenAre(agents, rest);
      ChildrenAre(agents, frontier[0]);
      forall x ensures x in Children(agents, frontier[0]) <==> ParentOf(agents, x) == Some(frontier[0]) {
        ChildrenHaveParent(agents, frontier[0], x);
      }
      assert frontier == [frontier[0]] + rest;
      NoRepeatsConcat(Children(agents, frontier[0]), AllChildren(agents, rest));
    }
  }

  /** Level `k` holds, once each, the agents `k + 1` hops below. */
  lemma {:induction false} LevelsAre(agents: Agents, slug: string, k: nat)
    requires UniqueSlugs(agents)
    ensures NoRepeats(Level(agents, slug, k))
    ensures forall x :: x in Level(agents, slug, k) <==> Up(agents, x, k + 1) == Some(slug)
  {
    if k == 0 {
      ChildrenAre(agents, slug);
      forall x ensures x in Children(agents, slug) <==> Up(agents, x, 1) == Some(slug) {
        ChildrenHaveParent(agents, slug, x);
        var p := ParentOf(agents, x);
        assert p.Some? ==> Up(agents, p.value, 0) == Some(p.value);
      }
    } else {
      LevelsAre(agents, slug, k - 1);
      AllChildrenAre(agents, Level(agents, slug, k - 1));
    }
  }

  // ── No chain is longer than the registry ────────────────────────────────────

  function Elements(slugs: seq<string>): set<string> {
    set x | x in slugs
  }

  lemma {:induction false} CountNoRepeats(slugs: seq<string>)
    requires NoRepeats(slugs)
    ensures |Elements(slugs)| == |slugs|
  {
    if slugs != [] {
      CountNoRepeats(slugs[1..]);
      assert slugs == [slugs[0]] + slugs[1..];
      assert Elements(slugs) == {slugs[0]} + Elements(slugs[1..]);
    }
  }

  lemma {:induction false} CountAtMost(agents: Agents)
    ensures |set a | a in agents :: a.slug| <= |agents|
  {
    if agents != [] {
      CountAtMost(agents[1..]);
      assert agents == [agents[0]] + agents[1..];
      assert (set a | a in agents :: a.slug) == {agents[0].slug} + set a | a in agents[1..] :: a.slug;
    }
  }

  lemma {:induction false} SubsetCount(a: set<string>, b: set<string>)
    requires a <= b
    ensures |a| <= |b|
  {
    if a != {} {
      var x :| x in a;
      SubsetCount(a - {x}, b - {x});
    }
  }

  function Chain(agents: Agents, slug: string, k: nat): seq<string>
    requires k > 0 ==> Up(agents, slug, k - 1).Some?
  {
    if k == 0 then []
    else
      UpTwice(agents, slug, if k > 1 then k - 2 else 0, 1);
      Chain(agents, slug, k - 1) + [Up(agents, slug, k - 1).value]
  }

  lemma {:induction false} ChainAt(agents: Agents, slug: string, k: nat, i: nat)
    requires i < k && Up(agents, slug, k - 1).Some?
    ensures |Chain(agents, slug, k)| == k && Up(agents, slug, i) == Some(Chain(agents, slug, k)[i])
  {
    UpTwice(agents, slug, if k > 1 then k - 2 else 0, 1);
    if i < k - 1 {
      ChainAt(agents, slug, k - 1, i);
    } else if k > 1 {
      ChainAt(agents, slug, k - 1, 0);
    }
  }

  /** A chain that comes back somewhere and still reaches `of` puts `of` on a cycle. */
  lemma RepeatMeansCycle(agents: Agents, slug: string, i: nat, j: nat, k: nat, of: string)
    requires i < j <= k && Up(agents, slug, k) == Some(of)
    requires Up(agents, slug, i) == Up(agents, slug, j)
    ensures OnCycle(agents, of)
  {
    UpTwice(agents, slug, i, k - j);
    UpTwice(agents, slug, j, k - j);
    assert Up(agents, slug, i + (k - j)) == Some(of);
    UpTwice(agents, slug, i + (k - j), j - i);
    assert Up(agents, of, j - i) == Some(of);
  }

  lemma ChainsAreShort(agents: Agents, slug: string, k: nat, of: string)
    requires k > 0 && Up(agents, slug, k) == Some(of) && !OnCycle(agents, of)
    ensures k <= |agents|
  {
    UpTwice(agents, slug, k - 1, 1);
    var chain := Chain(agents, slug, k);
    ChainAt(agents, slug, k, 0);
    forall i | 0 <= i < k
      ensures Up(agents, slug, i) == Some(chain[i]) && chain[i] in set a | a in agents :: a.slug
    {
      ChainAt(agents, slug, k, i);
      UpTwice(agents, slug, i, k - i);
      assert Find(agents, chain[i]).Some?;
    }
    forall i, j | 0 <= i < j < k ensures chain[i] != chain[j] {
      if chain[i] == chain[j] {
        RepeatMeansCycle(agents, slug, i, j, k, of);
      }
    }
    CountNoRepeats(chain);
    CountAtMost(agents);
    SubsetCount(Elements(chain), set a | a in agents :: a.slug);
  }

  lemma LevelsEnd(agents: Agents, slug: string, k: nat)
    requires UniqueSlugs(agents) && !OnCycle(agents, slug) && k >= |agents|
    ensures Level(agents, slug, k) == []
  {
    LevelsAre(agents, slug, k);
    if Level(agents, slug, k) != [] {
      var x := Level(agents, slug, k)[0];
      assert x in Level(agents, slug, k);
      ChainsAreShort(agents, x, k + 1, slug);
    }
  }

  lemma {:induction false} AroundTheCycle(agents: Agents, slug: string, c: nat, n: nat)
    requires Up(agents, slug, c) == Some(slug)
    ensures Up(agents, slug, n * c) == Some(slug)
  {
    if n > 0 {
      AroundTheCycle(agents, slug, c, n - 1);
      UpTwice(agents, slug, (n - 1) * c, c);
      assert n * c == (n - 1) * c + c;
    }
  }

  lemma LevelsGoOn(agents: Agents, slug: string, k: nat)
    requires UniqueSlugs(agents) && OnCycle(agents, slug)
    ensures Level(agents, slug, k) != []
  {
    var c :| c > 0 && Up(agents, slug, c) == Some(slug);
    AroundTheCycle(agents, slug, c, k + 1);
    assert (k + 1) * c >= k + 1;
    var m := (k + 1) * c - (k + 1);
    UpTwice(agents, slug, m, k + 1);
    var x := Up(agents, slug, m).value;
    LevelsAre(agents, slug, k);
    assert x in Level(agents, slug, k);
  }

  /** The walk over the levels comes to an end exactly when the agent is not its own ancestor. */
  lemma WalkEndsIffNoCycle(agents: Agents, slug: string)
    requires UniqueSlugs(agents)
    ensures (exists k :: Level(agents, slug, k) == []) <==> !OnCycle(agents, slug)
  {
    if OnCycle(agents, slug) {
      forall k: nat ensures Level(agents, slug, k) != [] {
        LevelsGoOn(agents, slug, k);
      }
    } else {
      LevelsEnd(agents, slug, |agents|);
    }
  }

  // ── Leaves first ────────────────────────────────────────────────────────────

  function Levels(agents: Agents, slug: string, n: nat): seq<seq<string>> {
    seq(n, k requires 0 <= k < n => Level(agents, slug, k))
  }

  /** The first `n` levels, deepest first. */
  function LeavesFirst(agents: Agents, slug: string, n: nat): seq<string> {
    if n == 0 then [] else Level(agents, slug, n - 1) + LeavesFirst(agents, slug, n - 1)
  }

  lemma {:induction false} FlattenedLevels(agents: Agents, slug: string, n: nat)
    ensures Flattened(Levels(agents, slug, n)) == LeavesFirst(agents, slug, n)
  {
    if n > 0 {
      assert Levels(agents, slug, n)[..n - 1] == Levels(agents, slug, n - 1);
      FlattenedLevels(agents, slug, n - 1);
    }
  }

  ghost predicate WithinHops(agents: Agents, x: string, slug: string, n: nat) {
    exists k :: 0 < k <= n && Up(agents, x, k) == Some(slug)
  }

  lemma WithinOneMore(agents: Agents, x: string, slug: string, n: nat)
    requires n > 0
    ensures WithinHops(agents, x, slug, n) <==> WithinHops(agents, x, slug, n - 1) || Up(agents, x, n) == Some(slug)
  {}

  lemma InEither(a: seq<string>, b: seq<string>, x: string)
    ensures x in a + b <==> x in a || x in b
  {}

  /** The first `n` levels hold what is within `n` hops below. */
  lemma {:induction false} InSomeLevel(agents: Agents, slug: string, n: nat, x: string)
    requires UniqueSlugs(agents)
    ensures x in LeavesFirst(agents, slug, n) <==> WithinHops(agents, x, slug, n)
  {
    if n > 0 {
      InSomeLevel(agents, slug, n - 1, x);
      LevelsAre(agents, slug, n - 1);
      WithinOneMore(agents, x, slug, n);
      InEither(Level(agents, slug, n - 1), LeavesFirst(agents, slug, n - 1), x);
    }
  }

  lemma SameHops(agents: Agents, slug: string, x: string, i: nat, j: nat)
    requires !OnCycle(agents, slug)
    requires Up(agents, x, i) == Some(slug) && Up(agents, x, j) == Some(slug)
    ensures i == j
  {
    if i < j { RepeatMeansCycle(agents, x, i, j, j, slug); }
    if j < i { RepeatMeansCycle(agents, x, j, i, i, slug); }
  }

  /** Hops of the agent at a position, and that they only go down along the list. */
  lemma {:induction false} HopsAt(agents: Agents, slug: string, n: nat, i: nat) returns (k: nat)
    requires UniqueSlugs(agents) && i < |LeavesFirst(agents, slug, n)|
    ensures 0 < k <= n && Up(agents, LeavesFirst(agents, slug, n)[i], k) == Some(slug)
    ensures n > 0 && i < |Level(agents, slug, n - 1)| ==> k == n
    ensures n > 0 && i >= |Level(agents, slug, n - 1)| ==> k < n
  {
    var deepest, others := Level(agents, slug, n - 1), LeavesFirst(agents, slug, n - 1);
    if i < |deepest| {
      LevelsAre(agents, slug, n - 1);
      assert deepest[i] in deepest;
      assert (deepest + others)[i] == deepest[i];
      k := n;
    } else {
      assert (deepest + others)[i] == others[i - |deepest|];
      k := HopsAt(agents, slug, n - 1, i - |deepest|);
    }
  }

  lemma {:induction false} NoneTwice(agents: Agents, slug: string, n: nat)
    requires UniqueSlugs(agents) && !OnCycle(agents, slug)
    ensures NoRepeats(LeavesFirst(agents, slug, n))
  {
    if n > 0 {
      NoneTwice(agents, slug, n - 1);
      LevelsAre(agents, slug, n - 1);
      var deepest, others := Level(agents, slug, n - 1), LeavesFirst(agents, slug, n - 1);
      forall x | x in deepest ensures x !in others {
        InSomeLevel(agents, slug, n - 1, x);
        if WithinHops(agents, x, slug, n - 1) {
          var k :| 0 < k <= n - 1 && Up(agents, x, k) == Some(slug);
          SameHops(agents, slug, x, k, n);
        }
      }
      NoRepeatsConcat(Level(agents, slug, n - 1), LeavesFirst(agents, slug, n - 1));
    }
  }

  /** Fewer hops never come before more. */
  lemma {:induction false} DeeperFirst(agents: Agents, slug: string, n: nat, i: nat, j: nat) returns (ki: nat, kj: nat)
    requires UniqueSlugs(agents) && i <= j < |LeavesFirst(agents, slug, n)|
    ensures ki >= kj > 0
    ensures Up(agents, LeavesFirst(agents, slug, n)[i], ki) == Some(slug)
    ensures Up(agents, LeavesFirst(agents, slug, n)[j], kj) == Some(slug)
  {
    var deepest := |Level(agents, slug, n - 1)|;
    if i < deepest {
      ki := HopsAt(agents, slug, n, i);
      kj := HopsAt(agents, slug, n, j);
    } else {
      ki, kj := DeeperFirst(agents, slug, n - 1, i - deepest, j - deepest);
    }
  }

  /** All of the agent's descendants, leaves first. */
  ghost predicate IsLeavesFirst(agents: Agents, slug: string, order: seq<string>) {
    && NoRepeats(order)
    && (forall x :: x in order <==> IsDescendant(agents, x, slug))
    && (forall i, j :: 0 <= i < |order| && 0 <= j < |order| && IsDescendant(agents, order[i], order[j]) ==> i < j)
  }

  /**
    For an agent that is not its own ancestor, the levels up to the first empty one hold
    every transitive descendant exactly once, each before all of its ancestors.
   */
  lemma LeavesFirstIsExact(agents: Agents, slug: string, n: nat)
    requires UniqueSlugs(agents) && !OnCycle(agents, slug) && Level(agents, slug, n) == []
    ensures IsLeavesFirst(agents, slug, LeavesFirst(agents, slug, n))
  {
    var order := LeavesFirst(agents, slug, n);
    NoneTwice(agents, slug, n);
    forall x ensures x in order <==> IsDescendant(agents, x, slug) {
      InSomeLevel(agents, slug, n, x);
      if IsDescendant(agents, x, slug) {
        var k :| k > 0 && Up(agents, x, k) == Some(slug);
        NothingBelowEmpty(agents, slug, n, x, k);
      }
    }
    forall i, j | 0 <= i < |order| && 0 <= j < |order| && IsDescendant(agents, order[i], order[j]) ensures i < j {
      DescendantsComeFirst(agents, slug, n, i, j);
    }
  }

  lemma EmptyLevel(agents: Agents, slug: string, n: nat, x: string)
    requires UniqueSlugs(agents) && Level(agents, slug, n) == []
    ensures Up(agents, x, n + 1) != Some(slug)
  {
    LevelsAre(agents, slug, n);
    assert x !in Level(agents, slug, n);
  }

  lemma NothingBelowEmpty(agents: Agents, slug: string, n: nat, x: string, k: nat)
    requires UniqueSlugs(agents) && Level(agents, slug, n) == [] && Up(agents, x, k) == Some(slug)
    ensures k <= n
  {
    if k > n {
      UpTwice(agents, x, k - n - 1, n + 1);
      var mid := Up(agents, x, k - n - 1);
      if mid.Some? {
        EmptyLevel(agents, slug, n, mid.value);
      }
    }
  }

  lemma DescendantsComeFirst(agents: Agents, slug: string, n: nat, i: nat, j: nat)
    requires UniqueSlugs(agents) && !OnCycle(agents, slug)
    requires i < |LeavesFirst(agents, slug, n)| && j < |LeavesFirst(agents, slug, n)|
    requires IsDescendant(agents, LeavesFirst(agents, slug, n)[i], LeavesFirst(agents, slug, n)[j])
    ensures i < j
  {
    var order := LeavesFirst(agents, slug, n);
    var d :| d > 0 && Up(agents, order[i], d) == Some(order[j]);
    if j <= i {
      var kj, ki := DeeperFirst(agents, slug, n, j, i);
      UpTwice(agents, order[i], d, kj);
      SameHops(agents, slug, order[i], ki, d + kj);
    }
  }

  // ── Removing in that order ──────────────────────────────────────────────────

  /** All records but those with the slug. */
  function Without(agents: Agents, slug: string): (r: Agents)
    ensures forall a :: a in r <==> a in agents && a.slug != slug
    ensures |r| <= |agents|
  {
    if agents == [] then []
    else
      assert agents == [agents[0]] + agents[1..];
      (if agents[0].slug != slug then [agents[0]] else []) + Without(agents[1..], slug)
  }

  lemma {:induction false} WithoutStaysUnique(agents: Agents, slug: string)
    requires UniqueSlugs(agents)
    ensures UniqueSlugs(Without(agents, slug))
  {
    if agents != [] {
      var rest := Without(agents[1..], slug);
      WithoutStaysUnique(agents[1..], slug);
      forall j | 0 <= j < |rest| ensures rest[j].slug != agents[0].slug {
        assert rest[j] in agents[1..];
        var k :| 0 <= k < |agents[1..]| && agents[1..][k] == rest[j];
        assert agents[k + 1] == rest[j];
      }
    }
  }

  /** Every record that is left still has its parent, if it had one before. */
  ghost predicate NoOrphans(before: Agents, now: Agents) {
    forall a :: a in now && a.parent.Some? && Registered(before, a.parent.value) ==> Registered(now, a.parent.value)
  }

  /** What is left when the slugs of `gone` are removed. */
  ghost predicate Left(before: Agents, gone: seq<string>, now: Agents) {
    forall a :: a in now <==> a in before && a.slug !in gone
  }

  /** At every moment of a removal in leaves-first order, the agent itself last, no record is orphaned. */
  lemma RemovalOrphansNobody(before: Agents, slug: string, order: seq<string>, m: nat, now: Agents)
    requires UniqueSlugs(before) && !OnCycle(before, slug) && IsLeavesFirst(before, slug, order)
    requires m <= |order| + 1 && Left(before, (order + [slug])[..m], now)
    ensures NoOrphans(before, now)
  {
    var all := order + [slug];
    forall a | a in now && a.parent.Some? && Registered(before, a.parent.value)
      ensures Registered(now, a.parent.value)
    {
      var p := a.parent.value;
      var parent := Find(before, p).value;
      if p in all[..m] {
        Finds(before, a);
        assert Up(before, p, 0) == Some(p);
        assert Up(before, a.slug, 1) == Some(p);
        var i :| 0 <= i < m && all[i] == p;
        ChildGoesFirst(before, slug, order, i, a.slug);
      } else {
        assert parent in now;
      }
    }
  }

  /** A child of the agent removed at `i` has been removed before. */
  lemma ChildGoesFirst(before: Agents, slug: string, order: seq<string>, i: nat, child: string)
    requires !OnCycle(before, slug) && IsLeavesFirst(before, slug, order) && i <= |order|
    requires Up(before, child, 1) == Some((order + [slug])[i])
    ensures child in (order + [slug])[..i]
  {
    var all := order + [slug];
    if i == |order| {
      assert IsDescendant(before, child, slug);
      assert all[..i] == order;
    } else {
      assert order[i] in order;
      var k :| k > 0 && Up(before, order[i], k) == Some(slug);
      UpTwice(before, child, 1, k);
      assert IsDescendant(before, child, slug);
      var c :| 0 <= c < |order| && order[c] == child;
      assert IsDescendant(before, order[c], order[i]);
      assert all[..i][c] == child;
    }
  }

  lemma GoneWereRegistered(before: Agents, slug: string, order: seq<string>, p: string)
    requires IsLeavesFirst(before, slug, order) && Registered(before, slug) && p in order + [slug]
    ensures Registered(before, p)
  {
    if p in order {
      var k :| k > 0 && Up(before, p, k) == Some(slug);
    }
  }

  lemma StillRegistered(before: Agents, gone: seq<string>, left: Agents, p: string)
    requires UniqueSlugs(before) && Left(before, gone, left) && Registered(before, p)
    ensures Registered(left, p) <==> p !in gone
  {
    assert Find(before, p).value in left <==> p !in gone;
  }

  /**
    Records registered while the removal goes on: nobody is orphaned exactly when none of them
    has a parent that has been removed already.
   */
  lemma LateChildrenOfTheRemoved(before: Agents, slug: string, order: seq<string>, m: nat, left: Agents,
                                 added: Agents, now: Agents)
    requires UniqueSlugs(before) && !OnCycle(before, slug) && Registered(before, slug)
    requires IsLeavesFirst(before, slug, order) && m <= |order| + 1
    requires Left(before, (order + [slug])[..m], left)
    requires forall a <- added :: a.slug !in (order + [slug])[..m]
    requires forall a :: a in now <==> a in left || a in added
    ensures NoOrphans(before, now) <==>
              forall a <- added :: a.parent.Some? ==> a.parent.value !in (order + [slug])[..m]
  {
    var gone := (order + [slug])[..m];
    RemovalOrphansNobody(before, slug, order, m, left);
    forall p | Registered(before, p) ensures Registered(now, p) <==> p !in gone {
      StillRegistered(before, gone, left, p);
      if Registered(left, p) {
        assert Find(left, p).value in now;
      }
      if Registered(now, p) {
        assert Find(now, p).value in left || Find(now, p).value in added;
      }
    }
    forall a | a in added && a.parent.Some? && a.parent.value in gone ensures Registered(before, a.parent.value) {
      GoneWereRegistered(before, slug, order, a.parent.value);
    }
    forall a | a in left && a.parent.Some? && Registered(before, a.parent.value)
      ensures a.parent.value !in gone
    {
      StillRegistered(before, gone, left, a.parent.value);
    }
  }

  // ── Depth ───────────────────────────────────────────────────────────────────

  const DEPTH_CAP := 256

  /** The smaller of the cap and the number of parent hops; a parent that is not registered is one hop. */
  predicate IsDepth(agents: Agents, slug: string, d: nat) {
    d <= DEPTH_CAP && Up(agents, slug, d).Some? && (d < DEPTH_CAP ==> Up(agents, slug, d + 1).None?)
  }

  lemma {:induction false} UpStays(agents: Agents, slug: string, i: nat, j: nat)
    requires i <= j && Up(agents, slug, j).Some?
    ensures Up(agents, slug, i).Some?
  {
    UpTwice(agents, slug, i, j - i);
  }

  lemma OneDepth(agents: Agents, slug: string, d: nat, e: nat)
    requires IsDepth(agents, slug, d) && IsDepth(agents, slug, e)
    ensures d == e
  {
    if d < e { UpStays(agents, slug, d + 1, e); }
    if e < d { UpStays(agents, slug, e + 1, d); }
  }

  /** On a cycle, or below one, the walk runs into the cap. */
  lemma DepthUnderCycle(agents: Agents, slug: string, top: string, d: nat)
    requires OnCycle(agents, top) && (slug == top || IsDescendant(agents, slug, top)) && IsDepth(agents, slug, d)
    ensures d == DEPTH_CAP == 256
  {
    var c :| c > 0 && Up(agents, top, c) == Some(top);
    assert Up(agents, slug, 0) == Some(slug);
    var k: nat :| Up(agents, slug, k) == Some(top);
    AroundTheCycle(agents, top, c, DEPTH_CAP);
    UpTwice(agents, slug, k, DEPTH_CAP * c);
    UpStays(agents, slug, DEPTH_CAP, k + DEPTH_CAP * c);
    assert IsDepth(agents, slug, DEPTH_CAP);
    OneDepth(agents, slug, d, DEPTH_CAP);
  }

  /** A child is one deeper than its registered parent, up to the cap. */
  lemma ChildIsOneDeeper(agents: Agents, child: string, parent: string, dc: nat, dp: nat)
    requires ParentOf(agents, child) == Some(parent)
    requires IsDepth(agents, child, dc) && IsDepth(agents, parent, dp)
    ensures dc == if dp < DEPTH_CAP then dp + 1 else DEPTH_CAP
  {
    UpTwice(agents, child, 1, dp);
    assert Up(agents, parent, 0) == Some(parent);
    assert Up(agents, child, 1) == Some(parent);
    if dp < DEPTH_CAP {
      UpTwice(agents, child, 1, dp + 1);
      OneDepth(agents, child, dc, dp + 1);
    } else {
      UpStays(agents, child, DEPTH_CAP, dp + 1);
      OneDepth(agents, child, dc, DEPTH_CAP);
    }
  }
}
