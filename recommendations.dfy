/**
 * Recommendations: the issues grouped by priority. Each issue becomes an
 * entry holding its category, message and fix, filed under its priority;
 * priorities appear in the order they first occur and entries keep the
 * order of the issues.
 */
module Recommendations {
  import opened Text
  import opened OrderedMap
  import opened Sequences
  import opened Rules

  /**
   * A recommendation shows the category, message and fix of its issue; the
   * reason is not shown.
   */
  datatype Recommendation = Recommendation(category: Category, wording: Wording)
  {
    function Message(): string { wording.Message() }
    function Fix(): string { wording.Fix() }
  }

  /** The part of an issue a recommendation keeps. */
  function Entry(issue: Issue): Recommendation
  {
    Recommendation(issue.category, issue.wording)
  }

  /** A default dictionary from priority to entries: each priority at most once. */
  type Grouped = g: seq<(Priority, seq<Recommendation>)> | Distinct(Keys(g)) witness []

  /** The priorities of the issues, each once, in order of first occurrence. */
  function PriorityOrder(issues: seq<Issue>): seq<Priority>
  {
    if |issues| == 0 then []
    else
      var ps := PriorityOrder(issues[..|issues| - 1]);
      var p := issues[|issues| - 1].priority;
      if p in ps then ps else ps + [p]
  }

  /** The entries of the issues with priority p, in issue order. */
  function EntriesFor(issues: seq<Issue>, p: Priority): seq<Recommendation>
  {
    if |issues| == 0 then []
    else
      var last := issues[|issues| - 1];
      EntriesFor(issues[..|issues| - 1], p) + (if last.priority == p then [Entry(last)] else [])
  }

  /** How reading issue i changes the priority order and every group. */
  lemma ReadIssue(issues: seq<Issue>, i: nat)
    requires i < |issues|
    ensures PriorityOrder(issues[..i + 1]) ==
      if issues[i].priority in PriorityOrder(issues[..i]) then PriorityOrder(issues[..i])
      else PriorityOrder(issues[..i]) + [issues[i].priority]
    ensures forall p {:trigger EntriesFor(issues[..i + 1], p)} ::
              EntriesFor(issues[..i + 1], p) ==
              EntriesFor(issues[..i], p) + (if issues[i].priority == p then [Entry(issues[i])] else [])
  {
    assert issues[..i + 1][..i] == issues[..i];
  }

  /** `grouped[p]` on a default dictionary: an empty group is added when p is new. */
  function Open(g: seq<(Priority, seq<Recommendation>)>, issues: seq<Issue>, i: nat)
    : (g': seq<(Priority, seq<Recommendation>)>)
    requires i < |issues|
    requires Keys(g) == PriorityOrder(issues[..i])
    requires forall k :: 0 <= k < |g| ==> g[k].1 == EntriesFor(issues[..i], g[k].0)
    ensures Keys(g') == PriorityOrder(issues[..i + 1])
    ensures Distinct(Keys(g')) && issues[i].priority in Keys(g')
    ensures forall k :: 0 <= k < |g'| ==> g'[k].1 == EntriesFor(issues[..i], g'[k].0)
  {
    ReadIssue(issues, i);
    PriorityOrderDistinct(issues[..i + 1]);
    var p := issues[i].priority;
    if p in Keys(g) then g
    else
      EntriesOutsideOrder(issues[..i], p);
      var g' := g + [(p, [])];
      assert Keys(g')[|g|] == p;
      g'
  }

  /** `.append(...)` to the k-th group, which belongs to the priority of issue i. */
  function FileEntry(g: seq<(Priority, seq<Recommendation>)>, k: nat, issues: seq<Issue>, i: nat)
    : (g': seq<(Priority, seq<Recommendation>)>)
    requires i < |issues|
    requires k < |g| && g[k].0 == issues[i].priority
    requires forall j :: 0 <= j < |g| ==> g[j].1 == EntriesFor(issues[..i], g[j].0)
    requires Distinct(Keys(g))
    ensures Keys(g') == Keys(g)
    ensures forall j :: 0 <= j < |g'| ==> g'[j].1 == EntriesFor(issues[..i + 1], g'[j].0)
  {
    ReadIssue(issues, i);
    var g' := g[k := (g[k].0, g[k].1 + [Entry(issues[i])])];
    assert forall j :: 0 <= j < |g'| ==> g'[j].0 == g[j].0;
    g'
  }

  /** Groups the issues by priority, as the recommendation builder does. */
  method BuildRecommendations(issues: seq<Issue>) returns (grouped: Grouped)
    ensures Keys(grouped) == PriorityOrder(issues)
    ensures forall k :: 0 <= k < |grouped| ==> grouped[k].1 == EntriesFor(issues, grouped[k].0)
  {
    var g: seq<(Priority, seq<Recommendation>)> := [];
    for i := 0 to |issues|
      invariant Keys(g) == PriorityOrder(issues[..i])
      invariant forall k :: 0 <= k < |g| ==> g[k].1 == EntriesFor(issues[..i], g[k].0)
    {
      g := Open(g, issues, i);
      var k := IndexOf(Keys(g), issues[i].priority);
      g := FileEntry(g, k, issues, i);
    }
    assert issues[..|issues|] == issues;
    PriorityOrderDistinct(issues);
    grouped := g;
  }

  // ------------------------------------------------- properties of the spec

  lemma {:induction false} PriorityOrderDistinct(issues: seq<Issue>)
    ensures Distinct(PriorityOrder(issues))
  {
    if |issues| > 0 {
      PriorityOrderDistinct(issues[..|issues| - 1]);
    }
  }

  /** A priority is a key exactly when some issue has it. */
  lemma {:induction false} PriorityOrderExact(issues: seq<Issue>, p: Priority)
    ensures p in PriorityOrder(issues) <==> exists i :: 0 <= i < |issues| && issues[i].priority == p
  {
    if |issues| > 0 {
      var init := issues[..|issues| - 1];
      PriorityOrderExact(init, p);
      assert forall i :: 0 <= i < |init| ==> init[i] == issues[i];
      if exists i :: 0 <= i < |issues| && issues[i].priority == p {
        var i :| 0 <= i < |issues| && issues[i].priority == p;
        if i < |init| {
          assert init[i].priority == p;
        }
      }
    }
  }

  /** A priority has entries exactly when it is a key: no group is ever empty. */
  lemma {:induction false} EntriesOutsideOrder(issues: seq<Issue>, p: Priority)
    ensures EntriesFor(issues, p) == [] <==> p !in PriorityOrder(issues)
  {
    if |issues| > 0 {
      EntriesOutsideOrder(issues[..|issues| - 1], p);
    }
  }

  /** Every issue lands in exactly one of the two groups. */
  lemma {:induction false} GroupsPartitionIssues(issues: seq<Issue>)
    ensures |EntriesFor(issues, High)| + |EntriesFor(issues, Medium)| == |issues|
  {
    if |issues| > 0 {
      GroupsPartitionIssues(issues[..|issues| - 1]);
    }
  }

  /** The entries of all issues, in issue order. */
  function AllEntries(issues: seq<Issue>): (es: seq<Recommendation>)
    ensures |es| == |issues|
    ensures forall i :: 0 <= i < |issues| ==> es[i] == Entry(issues[i])
  {
    seq(|issues|, i requires 0 <= i < |issues| => Entry(issues[i]))
  }

  /** Each group lists its entries in the order their issues were reported. */
  lemma {:induction false} GroupsKeepIssueOrder(issues: seq<Issue>, p: Priority)
    ensures IsSubsequence(EntriesFor(issues, p), AllEntries(issues))
  {
    if |issues| > 0 {
      var init := issues[..|issues| - 1];
      GroupsKeepIssueOrder(init, p);
      var es, all := EntriesFor(issues, p), AllEntries(issues);
      assert all[..|all| - 1] == AllEntries(init);
      if issues[|issues| - 1].priority == p {
        assert es[..|es| - 1] == EntriesFor(init, p);
        assert es[|es| - 1] == all[|all| - 1];
        assert IsSubsequence(es[..|es| - 1], all[..|all| - 1]);
      } else {
        assert es == EntriesFor(init, p);
        assert IsSubsequence(es, all[..|all| - 1]);
      }
    }
  }
}
