/** The agent registry and the cascade that tears an agent down (core/src/registry.rs, lair/src/lair.rs). */
module Registry {
  import opened Prelude
  import opened AgentForest

  class Registry {
    var agents: Agents

    /** `get`, `set`, `add` and `remove` all go by slug. */
    ghost predicate Valid()
      reads this
    {
      UniqueSlugs(agents)
    }

    constructor (loaded: Agents)
      requires UniqueSlugs(loaded)
      ensures Valid() && agents == loaded
    {
      agents := loaded;
    }

    /** Insert or replace by slug, in place. */
    method Set(record: Agent)
      requires Valid()
      modifies this
      ensures Valid()
      ensures Find(agents, record.slug) == Some(record)
      ensures forall slug :: slug != record.slug ==> Find(agents, slug) == old(Find(agents, slug))
      ensures |agents| == old(|agents|) + if old(Registered(agents, record.slug)) then 0 else 1
      ensures forall i :: 0 <= i < old(|agents|) ==> agents[i].slug == old(agents[i].slug)
    {
      var i := 0;
      while i < |agents|
        invariant i <= |agents| && agents == old(agents)
        invariant forall k :: 0 <= k < i ==> agents[k].slug != record.slug
      {
        if agents[i].slug == record.slug {
          FindAt(agents, i);
          agents := agents[i := record];
          FindAt(agents, i);
          forall slug | slug != record.slug ensures Find(agents, slug) == old(Find(agents, slug)) {
            FindOthers(old(agents), i, record, slug);
          }
          return;
        }
        i := i + 1;
      }
      assert !Registered(agents, record.slug);
      agents := agents + [record];
      FindAt(agents, |agents| - 1);
      forall slug | slug != record.slug ensures Find(agents, slug) == old(Find(agents, slug)) {
        FindAppended(old(agents), record, slug);
      }
    }

    /** Refused when the slug is taken. */
    method Add(record: Agent) returns (ok: bool)
      requires Valid()
      modifies this
      ensures Valid()
      ensures ok <==> old(!Registered(agents, record.slug))
      ensures agents == old(agents) + if ok then [record] else []
    {
      ok := !Registered(agents, record.slug);
      if ok {
        agents := agents + [record];
      }
    }

    method Remove(slug: string) returns (removed: bool)
      requires Valid()
      modifies this
      ensures Valid()
      ensures removed <==> old(Registered(agents, slug))
      ensures agents == Without(old(agents), slug)
      ensures !Registered(agents, slug)
    {
      var before := |agents|;
      WithoutStaysUnique(agents, slug);
      WithoutRemoves(agents, slug);
      agents := Without(agents, slug);
      removed := |agents| != before;
    }

    /** The walk up the parent chain, capped. */
    method DepthOf(slug: string) returns (depth: Option<nat>)
      ensures depth.Some? <==> Registered(agents, slug)
      ensures depth.Some? ==> IsDepth(agents, slug, depth.value)
    {
      var record := Find(agents, slug);
      if record.None? {
        return None;
      }
      var current := record.value.parent;
      var d: nat := 0;
      assert Up(agents, slug, 1) == current by { UpOnce(agents, slug); }
      for hop := 0 to DEPTH_CAP
        invariant d == hop
        invariant Up(agents, slug, d).Some? && Up(agents, slug, d + 1) == current
      {
        if current.None? {
          return Some(d);
        }
        var p := current.value;
        d := d + 1;
        var parent := Find(agents, p);
        current := if parent.Some? then parent.value.parent else None;
        UpTwice(agents, slug, d, 1);
        UpOnce(agents, p);
        if current.None? && parent.None? {
          return Some(d);
        }
      }
      return Some(d);
    }

    /** Breadth-first by level, then reversed. */
    method DescendantsLeavesFirst(slug: string) returns (order: seq<string>)
      requires Valid() && !OnCycle(agents, slug)
      ensures IsLeavesFirst(agents, slug, order)
    {
      var levels: seq<seq<string>> := [];
      var frontier := Children(agents, slug);
      while frontier != []
        invariant levels == Levels(agents, slug, |levels|)
        invariant frontier == Level(agents, slug, |levels|)
        invariant |levels| <= |agents|
        decreases |agents| - |levels|
      {
        if |levels| >= |agents| {
          LevelsEnd(agents, slug, |levels|);
        }
        var next := AllChildren(agents, frontier);
        levels := levels + [frontier];
        frontier := next;
      }
      order := Flattened(levels);
      FlattenedLevels(agents, slug, |levels|);
      LeavesFirstIsExact(agents, slug, |levels|);
    }

    /**
      `terminate_agent_by_name`: every descendant, leaves first, then the agent itself. At
      every moment in between no surviving record has lost its parent.
     */
    method Terminate(slug: string, stops: bool) returns (ok: bool)
      requires Valid() && !OnCycle(agents, slug)
      modifies this
      ensures Valid() && NoOrphans(old(agents), agents)
      ensures !old(Registered(agents, slug)) ==> !ok && agents == old(agents)
      ensures ok <==> (old(Registered(agents, slug))
        && if old(Find(agents, slug)).value.remote then exists x :: IsDescendant(old(agents), x, slug) else stops)
      ensures old(Registered(agents, slug)) ==> forall a :: a in agents <==>
        a in old(agents) && !IsDescendant(old(agents), a.slug, slug) && (ok ==> a.slug != slug)
    {
      var target := Find(agents, slug);
      if target.None? {
        return false;
      }
      var descendants := DescendantsLeavesFirst(slug);
      assert descendants != [] ==> descendants[0] in descendants;
      if target.value.remote && descendants == [] {
        return false;
      }
      ghost var before := agents;
      ghost var all := descendants + [slug];
      for i := 0 to |descendants|
        invariant Valid() && Left(before, descendants[..i], agents)
        invariant NoOrphans(before, agents)
      {
        var _ := Remove(descendants[i]);
        assert descendants[..i + 1] == descendants[..i] + [descendants[i]];
        assert all[..i + 1] == descendants[..i + 1];
        RemovalOrphansNobody(before, slug, descendants, i + 1, agents);
      }
      assert descendants[..|descendants|] == descendants;
      if !target.value.remote && !stops {
        return false;
      }
      var _ := Remove(slug);
      assert all[..|descendants| + 1] == all;
      RemovalOrphansNobody(before, slug, descendants, |descendants| + 1, agents);
      return true;
    }
  }

  lemma {:induction false} FindAt(agents: Agents, i: nat)
    requires i < |agents| && forall k :: 0 <= k < i ==> agents[k].slug != agents[i].slug
    ensures Find(agents, agents[i].slug) == Some(agents[i])
  {
    if i > 0 {
      FindAt(agents[1..], i - 1);
    }
  }

  lemma {:induction false} FindOthers(agents: Agents, i: nat, record: Agent, slug: string)
    requires i < |agents| && agents[i].slug == record.slug != slug
    ensures Find(agents[i := record], slug) == Find(agents, slug)
  {
    if i > 0 {
      assert agents[i := record][1..] == agents[1..][i - 1 := record];
      FindOthers(agents[1..], i - 1, record, slug);
    } else {
      assert agents[i := record][1..] == agents[1..];
    }
  }

  lemma {:induction false} FindAppended(agents: Agents, record: Agent, slug: string)
    requires record.slug != slug
    ensures Find(agents + [record], slug) == Find(agents, slug)
  {
    if agents != [] {
      assert (agents + [record])[1..] == agents[1..] + [record];
      FindAppended(agents[1..], record, slug);
    } else {
      assert [record][1..] == [];
    }
  }

  lemma {:induction false} WithoutRemoves(agents: Agents, slug: string)
    ensures |Without(agents, slug)| == |agents| <==> !Registered(agents, slug)
  {
    if agents != [] {
      WithoutRemoves(agents[1..], slug);
    }
  }

  lemma UpOnce(agents: Agents, slug: string)
    ensures Up(agents, slug, 1) == ParentOf(agents, slug)
  {
    var p := ParentOf(agents, slug);
    assert p.Some? ==> Up(agents, p.value, 0) == p;
  }
}
