/** Joining a task group: the wake contract can only grow, and when the order of joins matters. */
module GroupJoin {
  import opened Basics

  /** Stored as a string; the only values that normalisation leaves. */
  datatype WaitFor = NoWait | Any | All

  function Rank(w: WaitFor): nat {
    match w case NoWait => 0 case Any => 1 case All => 2
  }

  /** One join; None is a key that it omits, and a present key has what normalizeGroup reads: any text, and true unless false. */
  datatype Join = Join(waitFor: Option<string>, wakeParent: Option<bool>, taskIds: seq<string>)

  datatype Group = Group(waitFor: WaitFor, wakeParent: bool, taskIds: seq<string>)

  /** normalizeGroup on waitFor: an unknown value means all. */
  function Normalized(w: string): WaitFor {
    if w == "any" then Any else if w == "none" then NoWait else All
  }

  /** mergeUnique: first occurrences of non-empty ids, left before right. */
  function MergeUnique(left: seq<string>, right: seq<string>): seq<string> {
    Unique(left + right)
  }

  function Unique(xs: seq<string>): seq<string> {
    if xs == [] then []
    else
      var before, x := Unique(xs[..|xs| - 1]), xs[|xs| - 1];
      if x == "" || x in before then before else before + [x]
  }

  /** The first of all, any, none that the group or the join asks for. */
  function Stronger(a: WaitFor, b: WaitFor): WaitFor {
    if a == All || b == All then All else if a == Any || b == Any then Any else NoWait
  }

  /** ensureGroup: creation uses the defaults all and true, a later join keeps what it omits. */
  function Ensure(g: Option<Group>, j: Join): Group {
    if g.None? then
      Group(
        if j.waitFor.Some? then Normalized(j.waitFor.value) else All,
        j.wakeParent.Some? ==> j.wakeParent.value,
        MergeUnique([], j.taskIds))
    else
      var incoming := if j.waitFor.Some? then Normalized(j.waitFor.value) else g.value.waitFor;
      Group(
        Stronger(g.value.waitFor, incoming),
        g.value.wakeParent || (j.wakeParent.Some? && j.wakeParent.value),
        MergeUnique(g.value.taskIds, j.taskIds))
  }

  /** A group that some joins reached, starting from an existing group or from none. */
  function JoinAll(g: Option<Group>, js: seq<Join>): Option<Group> {
    if js == [] then g else Some(Ensure(JoinAll(g, js[..|js| - 1]), js[|js| - 1]))
  }

  method MergeTaskIds(left: seq<string>, right: seq<string>) returns (r: seq<string>)
    ensures r == MergeUnique(left, right)
  {
    var all := left + right;
    r := [];
    for i := 0 to |all|
      invariant r == Unique(all[..i])
    {
      assert all[..i + 1][..i] == all[..i];
      if all[i] != "" && all[i] !in r {
        r := r + [all[i]];
      }
    }
    assert all[..|all|] == all;
  }

  // ----- What a merge keeps -----

  predicate Distinct(xs: seq<string>) {
    forall i, j | 0 <= i < j < |xs| :: xs[i] != xs[j]
  }

  lemma {:induction false} UniqueMeaning(xs: seq<string>)
    ensures Distinct(Unique(xs))
    ensures forall x :: x in Unique(xs) <==> x in xs && x != ""
  {
    if xs != [] {
      UniqueMeaning(xs[..|xs| - 1]);
      assert xs == xs[..|xs| - 1] + [xs[|xs| - 1]];
    }
  }

  /** One join never weakens the contract and never forgets a task. */
  lemma {:induction false} JoinStrengthens(g: Group, j: Join)
    ensures var r := Ensure(Some(g), j);
            && Rank(r.waitFor) >= Rank(g.waitFor)
            && (j.waitFor.Some? ==> Rank(r.waitFor) >= Rank(Normalized(j.waitFor.value)))
            && (g.wakeParent ==> r.wakeParent)
            && Distinct(r.taskIds)
            && (forall x | x in g.taskIds && x != "" :: x in r.taskIds)
  {
    UniqueMeaning(g.taskIds + j.taskIds);
  }

  // ----- Any number of joins -----

  predicate Asks(js: seq<Join>, w: WaitFor) {
    exists i | 0 <= i < |js| :: js[i].waitFor.Some? && Normalized(js[i].waitFor.value) == w
  }

  predicate Wakes(js: seq<Join>) {
    exists i | 0 <= i < |js| :: js[i].wakeParent == Some(true)
  }

  predicate Names(js: seq<Join>, x: string) {
    x != "" && exists i | 0 <= i < |js| :: x in js[i].taskIds
  }

  /** The strongest of a start value and everything the joins ask for. */
  function Strongest(start: WaitFor, js: seq<Join>): WaitFor {
    if start == All || Asks(js, All) then All else if start == Any || Asks(js, Any) then Any else NoWait
  }

  lemma {:induction false} LastJoin(js: seq<Join>, j: Join, w: WaitFor, x: string)
    ensures Asks(js + [j], w) <==> Asks(js, w) || (j.waitFor.Some? && Normalized(j.waitFor.value) == w)
    ensures Wakes(js + [j]) <==> Wakes(js) || j.wakeParent == Some(true)
    ensures Names(js + [j], x) <==> Names(js, x) || (x != "" && x in j.taskIds)
  {
    var all := js + [j];
    assert all[|js|] == j;
    assert forall i | 0 <= i < |js| :: all[i] == js[i];
  }

  /** On an existing group, any number of joins gives the maximum, the disjunction and the duplicate-free union. */
  lemma {:induction false} JoinsAccumulate(g: Group, js: seq<Join>)
    ensures var r := JoinAll(Some(g), js);
            && r.Some?
            && r.value.waitFor == Strongest(g.waitFor, js)
            && r.value.wakeParent == (g.wakeParent || Wakes(js))
            && (forall x | x != "" :: x in r.value.taskIds <==> x in g.taskIds || Names(js, x))
            && (Distinct(g.taskIds) ==> Distinct(r.value.taskIds))
  {
    if js != [] {
      var init, j := js[..|js| - 1], js[|js| - 1];
      assert js == init + [j];
      JoinsAccumulate(g, init);
      var before := JoinAll(Some(g), init).value;
      UniqueMeaning(before.taskIds + j.taskIds);
      LastJoin(init, j, All, "");
      LastJoin(init, j, Any, "");
      forall x | x != "" ensures x in JoinAll(Some(g), js).value.taskIds <==> x in g.taskIds || Names(js, x) {
        LastJoin(init, j, All, x);
      }
    }
  }

  /** The same wake contract and the same tasks. */
  ghost predicate Equivalent(a: Option<Group>, b: Option<Group>) {
    && a.Some? && b.Some?
    && a.value.waitFor == b.value.waitFor && a.value.wakeParent == b.value.wakeParent
    && forall x | x != "" :: x in a.value.taskIds <==> x in b.value.taskIds
  }

  lemma {:induction false} PermutedJoins(js: seq<Join>, ks: seq<Join>)
    requires multiset(js) == multiset(ks)
    ensures forall w :: Asks(js, w) <==> Asks(ks, w)
    ensures Wakes(js) <==> Wakes(ks)
    ensures forall x :: Names(js, x) <==> Names(ks, x)
  {
    PermutedOneWay(js, ks);
    PermutedOneWay(ks, js);
  }

  lemma {:induction false} PermutedOneWay(js: seq<Join>, ks: seq<Join>)
    requires multiset(js) == multiset(ks)
    ensures forall w :: Asks(js, w) ==> Asks(ks, w)
    ensures Wakes(js) ==> Wakes(ks)
    ensures forall x :: Names(js, x) ==> Names(ks, x)
  {
    forall i | 0 <= i < |js| ensures exists k :: 0 <= k < |ks| && ks[k] == js[i] {
      assert js[i] in multiset(js);
      assert js[i] in multiset(ks);
    }
    forall w | Asks(js, w) ensures Asks(ks, w) {
      var i :| 0 <= i < |js| && js[i].waitFor.Some? && Normalized(js[i].waitFor.value) == w;
      var k :| 0 <= k < |ks| && ks[k] == js[i];
    }
    if Wakes(js) {
      var i :| 0 <= i < |js| && js[i].wakeParent == Some(true);
      var k :| 0 <= k < |ks| && ks[k] == js[i];
    }
    forall x | Names(js, x) ensures Names(ks, x) {
      var i :| 0 <= i < |js| && x in js[i].taskIds;
      var k :| 0 <= k < |ks| && ks[k] == js[i];
    }
  }

  /** On an existing group the order of joins does not matter. */
  lemma {:induction false} JoinsCommute(g: Group, js: seq<Join>, ks: seq<Join>)
    requires multiset(js) == multiset(ks)
    ensures Equivalent(JoinAll(Some(g), js), JoinAll(Some(g), ks))
  {
    JoinsAccumulate(g, js);
    JoinsAccumulate(g, ks);
    PermutedJoins(js, ks);
  }

  // ----- Joins that create the group -----

  predicate Omits(js: seq<Join>) {
    exists i | 0 <= i < |js| :: js[i].waitFor.None?
  }

  predicate Silent(js: seq<Join>) {
    exists i | 0 <= i < |js| :: js[i].wakeParent.None?
  }

  predicate Refuses(js: seq<Join>) {
    exists i | 0 <= i < |js| :: js[i].wakeParent == Some(false)
  }

  /** What creation leaves: the first join's defaults count, everyone else's omissions do not. */
  lemma {:induction false} CreatedJoins(js: seq<Join>)
    requires js != []
    ensures var r := JoinAll(None, js);
            && r.Some?
            && r.value.waitFor == Strongest(if js[0].waitFor.None? then All else NoWait, js)
            && r.value.wakeParent == (js[0].wakeParent.None? || Wakes(js))
            && (forall x | x != "" :: x in r.value.taskIds <==> Names(js, x))
            && Distinct(r.value.taskIds)
  {
    var first := Ensure(None, js[0]);
    CreationFirst(js);
    JoinsAccumulate(first, js[1..]);
    UniqueMeaning([] + js[0].taskIds);
    assert js == [js[0]] + js[1..];
    Cons(js[0], js[1..]);
  }

  lemma {:induction false} Cons(j: Join, js: seq<Join>)
    ensures forall w :: Asks([j] + js, w) <==> Asks(js, w) || (j.waitFor.Some? && Normalized(j.waitFor.value) == w)
    ensures Wakes([j] + js) <==> Wakes(js) || j.wakeParent == Some(true)
    ensures forall x :: Names([j] + js, x) <==> Names(js, x) || (x != "" && x in j.taskIds)
  {
    var all := [j] + js;
    assert all[0] == j;
    assert forall i | 0 <= i < |js| :: all[i + 1] == js[i];
  }

  lemma {:induction false} CreationFirst(js: seq<Join>)
    requires js != []
    ensures JoinAll(None, js) == JoinAll(Some(Ensure(None, js[0])), js[1..])
  {
    if |js| == 1 {
      assert js[..0] == [] && js[1..] == [];
    } else {
      CreationFirst(js[..|js| - 1]);
      assert js[..|js| - 1][1..] == js[1..][..|js[1..]| - 1];
    }
  }

  /** Every order of the same joins creates an equivalent group. */
  ghost predicate OrderFree(js: seq<Join>) {
    forall ks: seq<Join> | multiset(ks) == multiset(js) :: Equivalent(JoinAll(None, js), JoinAll(None, ks))
  }

  function Front(js: seq<Join>, i: nat): seq<Join>
    requires i < |js|
  {
    [js[i]] + js[..i] + js[i + 1..]
  }

  lemma {:induction false} FrontPermutes(js: seq<Join>, i: nat)
    requires i < |js|
    ensures multiset(Front(js, i)) == multiset(js)
  {
    assert js == js[..i] + [js[i]] + js[i + 1..];
  }

  /**
    Joins that create a group may come in any order exactly when omitting a
    field and giving a weaker value than its default are not mixed: either
    nobody omits waitFor, or nobody gives it, or somebody asks for all; and
    the same for wakeParent.
   */
  lemma {:induction false} CreationOrderFreeIff(js: seq<Join>)
    requires js != []
    ensures OrderFree(js) <==>
              && (Omits(js) && (Asks(js, Any) || Asks(js, NoWait)) ==> Asks(js, All))
              && (Silent(js) && Refuses(js) ==> Wakes(js))
  {
    if (Omits(js) && (Asks(js, Any) || Asks(js, NoWait)) ==> Asks(js, All)) && (Silent(js) && Refuses(js) ==> Wakes(js)) {
      forall ks: seq<Join> | multiset(ks) == multiset(js) ensures Equivalent(JoinAll(None, js), JoinAll(None, ks)) {
        SameCreation(js, ks);
      }
    } else if Omits(js) && (Asks(js, Any) || Asks(js, NoWait)) && !Asks(js, All) {
      var i :| 0 <= i < |js| && js[i].waitFor.None?;
      var k :| 0 <= k < |js| && js[k].waitFor.Some?;
      DifferentCreation(js, i, k);
    } else {
      var i :| 0 <= i < |js| && js[i].wakeParent.None?;
      var k :| 0 <= k < |js| && js[k].wakeParent == Some(false);
      DifferentCreation(js, i, k);
    }
  }

  /** An omission and a weaker value, in both orders. */
  lemma {:induction false} CreationOrderCanMatter()
    ensures var silent, any := Join(None, None, []), Join(Some("any"), None, []);
            && JoinAll(None, [silent, any]).value.waitFor == All
            && JoinAll(None, [any, silent]).value.waitFor == Any
  {
    var silent, any := Join(None, None, []), Join(Some("any"), None, []);
    CreationFirst([silent, any]);
    CreationFirst([any, silent]);
  }

  lemma {:induction false} SameCreation(js: seq<Join>, ks: seq<Join>)
    requires js != [] && multiset(ks) == multiset(js)
    requires Omits(js) && (Asks(js, Any) || Asks(js, NoWait)) ==> Asks(js, All)
    requires Silent(js) && Refuses(js) ==> Wakes(js)
    ensures Equivalent(JoinAll(None, js), JoinAll(None, ks))
  {
    assert |ks| == |js| by { assert |multiset(ks)| == |multiset(js)|; }
    PermutedJoins(js, ks);
    CreatedJoins(js);
    CreatedJoins(ks);
    assert ks[0] in multiset(ks) && ks[0] in js;
    var n :| 0 <= n < |js| && js[n] == ks[0];
    FirstDecides(js, n);
  }

  /** Under the condition, whoever comes first leaves the same contract. */
  lemma {:induction false} FirstDecides(js: seq<Join>, n: nat)
    requires n < |js|
    requires Omits(js) && (Asks(js, Any) || Asks(js, NoWait)) ==> Asks(js, All)
    requires Silent(js) && Refuses(js) ==> Wakes(js)
    ensures Strongest(if js[0].waitFor.None? then All else NoWait, js) == Strongest(if js[n].waitFor.None? then All else NoWait, js)
    ensures js[0].wakeParent.None? || Wakes(js) <==> js[n].wakeParent.None? || Wakes(js)
  {
    if js[0].waitFor.None? != js[n].waitFor.None? {
      var given := if js[0].waitFor.None? then js[n] else js[0];
      assert Omits(js);
      assert Asks(js, Normalized(given.waitFor.value));
    }
    if js[0].wakeParent.None? != js[n].wakeParent.None? {
      assert Silent(js);
      var given := if js[0].wakeParent.None? then js[n] else js[0];
      if given.wakeParent.value {
        assert given.wakeParent == Some(true);
      } else {
        assert given.wakeParent == Some(false);
        assert Refuses(js);
      }
    }
  }

  /** Two orders, one starting with an omission and one with a weaker value, create different groups. */
  lemma {:induction false} DifferentCreation(js: seq<Join>, i: nat, k: nat)
    requires i < |js| && k < |js|
    requires
      || (js[i].waitFor.None? && js[k].waitFor.Some? && !Asks(js, All))
      || (js[i].wakeParent.None? && js[k].wakeParent == Some(false) && !Wakes(js))
    ensures !OrderFree(js)
  {
    FrontPermutes(js, i);
    FrontPermutes(js, k);
    CreatedJoins(js);
    CreatedJoins(Front(js, i));
    CreatedJoins(Front(js, k));
    PermutedJoins(js, Front(js, i));
    PermutedJoins(js, Front(js, k));
    var a, b, c := JoinAll(None, js), JoinAll(None, Front(js, i)), JoinAll(None, Front(js, k));
    assert b.value.waitFor != c.value.waitFor || b.value.wakeParent != c.value.wakeParent;
    assert !Equivalent(a, b) || !Equivalent(a, c);
  }
}
