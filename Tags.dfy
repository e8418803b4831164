/** Turning the article's tag names into WordPress tag ids: each name is
    searched for, reused when a tag with the same lower-cased name exists,
    created otherwise, and skipped when either request fails. */
module Tags {
  import opened Wrappers
  import opened Text
  import opened Remote

  /** The slug sent with a new tag: the name lower-cased, each run of white
      space replaced by one `-`. */
  function Slug(name: string): (r: string)
    ensures NoSpace(r)
    ensures |r| <= |name|
  {
    HyphenateShape(Lower(name));
    Hyphenate(Lower(name))
  }

  /** Slugs are stable: a slug is its own slug. */
  lemma SlugStable(name: string)
    ensures Slug(Slug(name)) == Slug(name)
  {
    var l := Lower(name);
    HyphenateLower(l);
    HyphenateShape(Hyphenate(l));
    LowerIdempotent(name);
  }

  /** Tag names compare without regard to case. */
  predicate SameName(a: string, b: string) {
    Lower(a) == Lower(b)
  }

  /** `existingTags.find(...)`: the position of the first tag whose name is
      `name` up to case. */
  function Find(table: seq<Tag>, name: string): (r: Option<nat>)
    ensures r.Some? ==>
      r.value < |table| && SameName(table[r.value].name, name) &&
      forall j :: 0 <= j < r.value ==> !SameName(table[j].name, name)
    ensures r.None? <==> forall j :: 0 <= j < |table| ==> !SameName(table[j].name, name)
  {
    if table == [] then None
    else if SameName(table[0].name, name) then Some(0)
    else match Find(table[1..], name)
      case None => None
      case Some(k) => Some(k + 1)
  }

  /** A match in a table is still the first match once more tags follow. */
  lemma FindExtend(table: seq<Tag>, more: seq<Tag>, name: string)
    requires Find(table, name).Some?
    ensures Find(table + more, name) == Find(table, name)
  {
    var k := Find(table, name).value;
    assert (table + more)[k] == table[k];
    assert forall j :: 0 <= j < k ==> (table + more)[j] == table[j];
  }

  /** With no match in a table, a tag appended with a matching name is the
      first match. */
  lemma FindAppended(table: seq<Tag>, tag: Tag, name: string)
    requires Find(table, name).None? && SameName(tag.name, name)
    ensures Find(table + [tag], name) == Some(|table|)
  {
    assert (table + [tag])[|table|] == tag;
    assert forall j :: 0 <= j < |table| ==> (table + [tag])[j] == table[j];
  }

  /** Where the loop over the names has got to: the site's tag table, its next
      tag id, the ids collected and the requests sent. */
  datatype TagRun = TagRun(table: seq<Tag>, next: nat, ids: seq<nat>, sent: seq<Request>)

  /** One iteration for `name`. A search that throws skips the name; a search
      that answers 2xx and holds a match reuses that tag's id; otherwise the
      tag is created, and its id is collected when the creation succeeds. */
  function Step(run: TagRun, name: string, policy: TagPolicy, endpoint: string, auth: string): TagRun {
    var searched := run.sent + [SearchTags(endpoint, name, auth)];
    if name in policy.searchUnreachable then
      run.(sent := searched)
    else if name !in policy.searchRefused && Find(run.table, name).Some? then
      run.(ids := run.ids + [run.table[Find(run.table, name).value].id], sent := searched)
    else
      var tried := searched + [CreateTag(endpoint, name, Slug(name), auth)];
      if name in policy.createRefused then run.(sent := tried)
      else TagRun(run.table + [Tag(run.next, name, Slug(name))], run.next + 1, run.ids + [run.next], tried)
  }

  /** The names processed in order, one `Step` each. */
  function Resolve(names: seq<string>, policy: TagPolicy, endpoint: string, auth: string,
                   start: TagRun): TagRun
    decreases |names|
  {
    if names == [] then start
    else Step(Resolve(names[..|names| - 1], policy, endpoint, auth, start),
              names[|names| - 1], policy, endpoint, auth)
  }

  /** The table only grows, and every tag added gets a fresh id from `next`
      on; at most one id is collected per name. */
  lemma {:induction false} ResolveGrows(names: seq<string>, policy: TagPolicy, endpoint: string,
                                        auth: string, start: TagRun)
    ensures var r := Resolve(names, policy, endpoint, auth, start);
      start.table <= r.table && start.ids <= r.ids && start.sent <= r.sent &&
      start.next <= r.next && |r.ids| <= |start.ids| + |names| &&
      forall j :: |start.table| <= j < |r.table| ==> start.next <= r.table[j].id < r.next
  {
    if names != [] {
      ResolveGrows(names[..|names| - 1], policy, endpoint, auth, start);
    }
  }

  /** Some tag in the table has this id. */
  predicate Known(table: seq<Tag>, id: nat) {
    exists j :: 0 <= j < |table| && table[j].id == id
  }

  /** Every id collected is the id of a tag the site now stores. */
  lemma {:induction false} IdsAreKnown(names: seq<string>, policy: TagPolicy, endpoint: string,
                                       auth: string, start: TagRun)
    ensures var r := Resolve(names, policy, endpoint, auth, start);
      forall k :: |start.ids| <= k < |r.ids| ==> Known(r.table, r.ids[k])
  {
    if names != [] {
      var init := names[..|names| - 1];
      var mid := Resolve(init, policy, endpoint, auth, start);
      var r := Resolve(names, policy, endpoint, auth, start);
      IdsAreKnown(init, policy, endpoint, auth, start);
      ResolveGrows(init, policy, endpoint, auth, start);
      assert mid.table <= r.table;
      forall k | |start.ids| <= k < |r.ids|
        ensures Known(r.table, r.ids[k])
      {
        if k < |mid.ids| {
          var j :| 0 <= j < |mid.table| && mid.table[j].id == mid.ids[k];
          assert r.ids[k] == mid.ids[k] && r.table[j] == mid.table[j];
        } else {
          var name := names[|names| - 1];
          if Find(mid.table, name).Some? && name !in policy.searchRefused {
            assert r.table[Find(mid.table, name).value].id == r.ids[k];
          } else {
            assert r.table[|mid.table|].id == r.ids[k];
          }
        }
      }
    }
  }

  /** The site answers every tag request made for these names. */
  predicate NoFailures(policy: TagPolicy, names: seq<string>) {
    forall k :: 0 <= k < |names| ==>
      names[k] !in policy.searchUnreachable && names[k] !in policy.searchRefused &&
      names[k] !in policy.createRefused
  }

  /** When the site answers, a step collects exactly one id for its name, and
      it is the id of the first tag with that name in the new table. */
  lemma StepFinds(run: TagRun, name: string, policy: TagPolicy, endpoint: string, auth: string)
    requires name !in policy.searchUnreachable && name !in policy.searchRefused
    requires name !in policy.createRefused
    ensures var r := Step(run, name, policy, endpoint, auth);
      run.table <= r.table && |r.ids| == |run.ids| + 1 && run.ids <= r.ids &&
      Find(r.table, name).Some? && r.table[Find(r.table, name).value].id == r.ids[|run.ids|]
  {
    if Find(run.table, name).None? {
      FindAppended(run.table, Tag(run.next, name, Slug(name)), name);
    }
  }

  /** A name's first match and its id survive tags appended to the table. */
  lemma FindKept(table: seq<Tag>, bigger: seq<Tag>, name: string)
    requires table <= bigger && Find(table, name).Some?
    ensures Find(bigger, name) == Find(table, name)
    ensures bigger[Find(bigger, name).value] == table[Find(table, name).value]
  {
    assert bigger == table + bigger[|table|..];
    FindExtend(table, bigger[|table|..], name);
  }

  /** When nothing fails, every name gets exactly one id, and it is the id of
      the first tag in the final table with that name up to case: names that
      differ only in case share one tag. */
  lemma {:induction false} ResolveFinds(names: seq<string>, policy: TagPolicy, endpoint: string,
                                        auth: string, start: TagRun)
    requires NoFailures(policy, names)
    ensures var r := Resolve(names, policy, endpoint, auth, start);
      |r.ids| == |start.ids| + |names| && Matched(r.table, r.ids, names, |names|, |start.ids|)
  {
    if names != [] {
      var init := names[..|names| - 1];
      var n := |init|;
      var mid := Resolve(init, policy, endpoint, auth, start);
      assert |mid.ids| == |start.ids| + n && Matched(mid.table, mid.ids, names, n, |start.ids|) by {
        assert forall k :: 0 <= k < n ==> init[k] == names[k];
        ResolveFinds(init, policy, endpoint, auth, start);
      }
      StepFinds(mid, names[n], policy, endpoint, auth);
      var r := Step(mid, names[n], policy, endpoint, auth);
      FindsSurvive(mid, r, names, n, |start.ids|);
    }
  }

  /** The first `n` names each have a match in `table`, whose id is the one
      collected for that name after the first `base` ids. */
  predicate Matched(table: seq<Tag>, ids: seq<nat>, names: seq<string>, n: nat, base: nat)
    requires n <= |names|
  {
    forall k :: 0 <= k < n ==>
      Find(table, names[k]).Some? && base + k < |ids| &&
      table[Find(table, names[k]).value].id == ids[base + k]
  }

  /** Matches found for earlier names, and the ids collected for them,
      survive a step that only appends, and the step's own name joins them. */
  lemma FindsSurvive(mid: TagRun, r: TagRun, names: seq<string>, n: nat, base: nat)
    requires n < |names| && mid.table <= r.table && mid.ids <= r.ids
    requires Matched(mid.table, mid.ids, names, n, base)
    requires |mid.ids| == base + n && |r.ids| == |mid.ids| + 1
    requires Find(r.table, names[n]).Some? && r.table[Find(r.table, names[n]).value].id == r.ids[base + n]
    ensures Matched(r.table, r.ids, names, n + 1, base)
  {
    forall k | 0 <= k < n + 1
      ensures Find(r.table, names[k]).Some? && base + k < |r.ids|
      ensures r.table[Find(r.table, names[k]).value].id == r.ids[base + k]
    {
      if k < n {
        FindKept(mid.table, r.table, names[k]);
      }
    }
  }

  /** The ids a table gives the names, when each name has a match. */
  function IdsIn(table: seq<Tag>, names: seq<string>): seq<nat>
    requires forall k :: 0 <= k < |names| ==> Find(table, names[k]).Some?
  {
    seq(|names|, k requires 0 <= k < |names| => table[Find(table, names[k]).value].id)
  }

  lemma IdsInLast(table: seq<Tag>, names: seq<string>)
    requires names != []
    requires forall k :: 0 <= k < |names| ==> Find(table, names[k]).Some?
    ensures var init := names[..|names| - 1];
      (forall k :: 0 <= k < |init| ==> Find(table, init[k]).Some?) &&
      IdsIn(table, names) == IdsIn(table, init) + [table[Find(table, names[|names| - 1]).value].id]
  {
  }

  /** A step for a name the table already holds, when the site answers,
      collects that tag's id and changes neither the table nor the next id. */
  lemma StepExisting(run: TagRun, name: string, policy: TagPolicy, endpoint: string, auth: string)
    requires name !in policy.searchUnreachable && name !in policy.searchRefused
    requires Find(run.table, name).Some?
    ensures var r := Step(run, name, policy, endpoint, auth);
      r.table == run.table && r.next == run.next &&
      r.ids == run.ids + [run.table[Find(run.table, name).value].id]
  {
  }

  /** Against a table that already holds every name, a run creates nothing
      and collects each name's id from the table. */
  lemma {:induction false} ResolveExisting(names: seq<string>, policy: TagPolicy, endpoint: string,
                                           auth: string, start: TagRun)
    requires NoFailures(policy, names)
    requires forall k :: 0 <= k < |names| ==> Find(start.table, names[k]).Some?
    ensures var r := Resolve(names, policy, endpoint, auth, start);
      r.table == start.table && r.next == start.next &&
      r.ids == start.ids + IdsIn(start.table, names)
  {
    if names != [] {
      var init := names[..|names| - 1];
      var name := names[|names| - 1];
      var mid := Resolve(init, policy, endpoint, auth, start);
      assert forall k :: 0 <= k < |init| ==> init[k] == names[k];
      assert mid.table == start.table && mid.next == start.next &&
        mid.ids == start.ids + IdsIn(start.table, init) by {
        ResolveExisting(init, policy, endpoint, auth, start);
      }
      StepExisting(mid, name, policy, endpoint, auth);
      IdsInLast(start.table, names);
    }
  }

  /** Publishing the same tag names twice is idempotent when the site answers:
      the second run creates no tag and collects the same ids. */
  lemma Idempotent(names: seq<string>, policy: TagPolicy, endpoint: string, auth: string,
                   table: seq<Tag>, next: nat)
    requires NoFailures(policy, names)
    ensures var first := Resolve(names, policy, endpoint, auth, TagRun(table, next, [], []));
      var second := Resolve(names, policy, endpoint, auth, TagRun(first.table, first.next, [], []));
      second.table == first.table && second.next == first.next && second.ids == first.ids
  {
    var first := Resolve(names, policy, endpoint, auth, TagRun(table, next, [], []));
    ResolveFinds(names, policy, endpoint, auth, TagRun(table, next, [], []));
    ResolveExisting(names, policy, endpoint, auth, TagRun(first.table, first.next, [], []));
    assert IdsIn(first.table, names) == first.ids;
  }

  /** The name's request fails: its search throws, or its creation is
      refused when the search gave no match to reuse. */
  predicate Fails(run: TagRun, name: string, policy: TagPolicy) {
    name in policy.searchUnreachable ||
    (name in policy.createRefused && (name in policy.searchRefused || Find(run.table, name).None?))
  }

  /** A run with the requests it sent forgotten. */
  function Outcome(run: TagRun): TagRun {
    run.(sent := [])
  }

  /** A failing name leaves the table, the next id and the ids as they were. */
  lemma StepFails(run: TagRun, name: string, policy: TagPolicy, endpoint: string, auth: string)
    requires Fails(run, name, policy)
    ensures Outcome(Step(run, name, policy, endpoint, auth)) == Outcome(run)
  {
  }

  /** What a step does apart from its requests does not depend on the
      requests sent before it. */
  lemma StepIgnoresSent(a: TagRun, b: TagRun, name: string, policy: TagPolicy, endpoint: string, auth: string)
    requires Outcome(a) == Outcome(b)
    ensures Outcome(Step(a, name, policy, endpoint, auth)) == Outcome(Step(b, name, policy, endpoint, auth))
  {
    assert a.table == b.table && a.next == b.next && a.ids == b.ids;
  }

  /** The last name of `pre + [name] + post`, and what comes before it. */
  lemma SplitLast(pre: seq<string>, name: string, post: seq<string>)
    requires post != []
    ensures var all := pre + [name] + post;
      all[..|all| - 1] == pre + [name] + post[..|post| - 1] && all[|all| - 1] == post[|post| - 1]
    ensures var rest := pre + post;
      rest[..|rest| - 1] == pre + post[..|post| - 1] && rest[|rest| - 1] == post[|post| - 1]
  {
  }

  /** A name whose request fails is skipped and nothing else changes: the tags
      created, the next id and the ids collected are those of the run without
      it, so only that name's id is missing. */
  lemma {:induction false} SkipFailed(pre: seq<string>, name: string, post: seq<string>, policy: TagPolicy,
                                      endpoint: string, auth: string, start: TagRun)
    requires Fails(Resolve(pre, policy, endpoint, auth, start), name, policy)
    ensures var all := Resolve(pre + [name] + post, policy, endpoint, auth, start);
      var rest := Resolve(pre + post, policy, endpoint, auth, start);
      all.table == rest.table && all.next == rest.next && all.ids == rest.ids
    decreases |post|
  {
    var all := Resolve(pre + [name] + post, policy, endpoint, auth, start);
    var rest := Resolve(pre + post, policy, endpoint, auth, start);
    if post == [] {
      assert (pre + [name] + post)[..|pre|] == pre;
      assert pre + post == pre;
      StepFails(Resolve(pre, policy, endpoint, auth, start), name, policy, endpoint, auth);
    } else {
      var init := post[..|post| - 1];
      var last := post[|post| - 1];
      SplitLast(pre, name, post);
      var a := Resolve(pre + [name] + init, policy, endpoint, auth, start);
      var b := Resolve(pre + init, policy, endpoint, auth, start);
      assert Outcome(a) == Outcome(b) by {
        SkipFailed(pre, name, init, policy, endpoint, auth, start);
      }
      assert all == Step(a, last, policy, endpoint, auth);
      assert rest == Step(b, last, policy, endpoint, auth);
      StepIgnoresSent(a, b, last, policy, endpoint, auth);
    }
  }

  /** When every other name is answered, a failing name costs only its own
      id: the run returns one id per other name, in order, each the id of that
      name's match. */
  lemma OnlyFailedOmitted(pre: seq<string>, name: string, post: seq<string>, policy: TagPolicy,
                          endpoint: string, auth: string, table: seq<Tag>, next: nat)
    requires NoFailures(policy, pre + post)
    requires Fails(Resolve(pre, policy, endpoint, auth, TagRun(table, next, [], [])), name, policy)
    ensures var all := Resolve(pre + [name] + post, policy, endpoint, auth, TagRun(table, next, [], []));
      |all.ids| == |pre| + |post| && Matched(all.table, all.ids, pre + post, |pre + post|, 0)
  {
    var start := TagRun(table, next, [], []);
    SkipFailed(pre, name, post, policy, endpoint, auth, start);
    ResolveFinds(pre + post, policy, endpoint, auth, start);
  }

  lemma ExampleSlugs()
    ensures Lower("AI") == "ai" && Lower("ai") == "ai" && Lower("Guide") == "guide"
    ensures Slug("AI") == "ai" && Slug("Guide") == "guide"
  {
    assert NoSpace("ai") && NoSpace("guide");
    HyphenateShape("ai");
    HyphenateShape("guide");
  }

  /** The first name of the example creates tag 1. */
  lemma ExampleFirst(run: TagRun, p: TagPolicy, endpoint: string, auth: string)
    requires run.table == [] && run.next == 1 && p == TagPolicy({}, {}, {})
    ensures var r := Step(run, "AI", p, endpoint, auth);
      r.table == [Tag(1, "AI", "ai")] && r.next == 2 && r.ids == run.ids + [1]
  {
    ExampleSlugs();
  }

  /** The second name differs only in case, so it reuses tag 1. */
  lemma ExampleSecond(run: TagRun, p: TagPolicy, endpoint: string, auth: string)
    requires run.table == [Tag(1, "AI", "ai")] && run.next == 2 && p == TagPolicy({}, {}, {})
    ensures var r := Step(run, "ai", p, endpoint, auth);
      r.table == run.table && r.next == 2 && r.ids == run.ids + [1]
  {
    ExampleSlugs();
    assert Find(run.table, "ai") == Some(0);
  }

  /** The third name is new and creates tag 2. */
  lemma ExampleThird(run: TagRun, p: TagPolicy, endpoint: string, auth: string)
    requires run.table == [Tag(1, "AI", "ai")] && run.next == 2 && p == TagPolicy({}, {}, {})
    ensures var r := Step(run, "Guide", p, endpoint, auth);
      r.table == [Tag(1, "AI", "ai"), Tag(2, "Guide", "guide")] && r.ids == run.ids + [2]
  {
    ExampleSlugs();
    assert !SameName("AI", "Guide") by {
      assert Lower("AI")[0] != Lower("Guide")[0];
    }
    assert Find(run.table, "Guide") == None;
  }

  /** Names that differ only in case share the tag the first of them
      created; the slug is the lower-cased name. */
  lemma CaseVariantsShareTag(endpoint: string, auth: string)
    ensures var r := Resolve(["AI", "ai", "Guide"], TagPolicy({}, {}, {}), endpoint, auth,
                             TagRun([], 1, [], []));
      r.ids == [1, 1, 2] && r.table == [Tag(1, "AI", "ai"), Tag(2, "Guide", "guide")]
  {
    var p := TagPolicy({}, {}, {});
    var s0 := TagRun([], 1, [], []);
    var s1 := Step(s0, "AI", p, endpoint, auth);
    ExampleFirst(s0, p, endpoint, auth);
    var s2 := Step(s1, "ai", p, endpoint, auth);
    ExampleSecond(s1, p, endpoint, auth);
    ExampleThird(s2, p, endpoint, auth);
    assert ["AI", "ai", "Guide"][..2] == ["AI", "ai"];
    assert ["AI", "ai"][..1] == ["AI"];
    assert Resolve(["AI"], p, endpoint, auth, s0) == s1;
    assert Resolve(["AI", "ai"], p, endpoint, auth, s0) == s2;
  }

  /** A step from any point is the step from the same table with nothing
      collected yet, its ids and requests added to those already there. */
  lemma StepShift(run: TagRun, name: string, policy: TagPolicy, endpoint: string, auth: string)
    ensures var s := Step(TagRun(run.table, run.next, [], []), name, policy, endpoint, auth);
      Step(run, name, policy, endpoint, auth) == TagRun(s.table, s.next, run.ids + s.ids, run.sent + s.sent)
  {
  }

  /** One iteration of the loop of `getOrCreateTags`. */
  method ResolveOne(site: Site, name: string, endpoint: string, auth: string) returns (id: Option<nat>)
    requires site.Valid()
    modifies site`tags, site`nextTagId, site`log
    ensures site.Valid()
    ensures var r := Step(TagRun(old(site.tags), old(site.nextTagId), [], []), name,
                          site.config.tagPolicy, endpoint, auth);
      site.tags == r.table && site.nextTagId == r.next &&
      r.ids == (if id.Some? then [id.value] else []) && site.log == old(site.log) + r.sent
  {
    var thrown, found := site.SearchTags(endpoint, name, auth);
    if thrown {
      return None;
    }
    if found.Some? {
      var k := Find(found.value, name);
      if k.Some? {
        return Some(found.value[k.value].id);
      }
    }
    id := site.CreateTag(endpoint, name, Slug(name), auth);
  }

  /** `getOrCreateTags`: the site's table and next id and the ids returned are
      those of `Resolve`, and the requests it lists are the ones sent. */
  method GetOrCreateTags(site: Site, names: seq<string>, endpoint: string, auth: string)
    returns (ids: seq<nat>)
    requires site.Valid()
    modifies site`tags, site`nextTagId, site`log
    ensures site.Valid()
    ensures var r := Resolve(names, site.config.tagPolicy, endpoint, auth,
                             TagRun(old(site.tags), old(site.nextTagId), [], []));
      site.tags == r.table && site.nextTagId == r.next && ids == r.ids &&
      site.log == old(site.log) + r.sent
  {
    ghost var start := TagRun(site.tags, site.nextTagId, [], []);
    ghost var sent: seq<Request> := [];
    var policy := site.config.tagPolicy;
    ids := [];
    for i := 0 to |names|
      invariant site.Valid()
      invariant Resolve(names[..i], policy, endpoint, auth, start) ==
        TagRun(site.tags, site.nextTagId, ids, sent)
      invariant site.log == old(site.log) + sent
    {
      assert names[..i + 1][..i] == names[..i];
      ghost var before := TagRun(site.tags, site.nextTagId, ids, sent);
      StepShift(before, names[i], policy, endpoint, auth);
      ghost var log1 := site.log;
      var id := ResolveOne(site, names[i], endpoint, auth);
      sent := sent + site.log[|log1|..];
      if id.Some? {
        ids := ids + [id.value];
      }
    }
    assert names[..|names|] == names;
  }
}
