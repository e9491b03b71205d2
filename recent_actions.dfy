/** The command palette's most-recently-used list (useRecentActions): a new
    entry goes to the front, every earlier entry with the same id or the
    same label is removed, and the list is cut to five entries. The clock
    reading is a parameter; storage is the value it yields. */
module RecentActions {
  import opened Seqs

  datatype ActionKind = Navigation | Action

  /** `caption` is the source's `label` (a reserved word here). */
  datatype RecentAction = RecentAction(id: string, caption: string, kind: ActionKind, timestamp: int)

  /** An action as the caller passes it, before it is stamped. */
  datatype NewAction = NewAction(id: string, caption: string, kind: ActionKind)

  const MaxRecentActions: nat := 5

  /** What loadRecentActions reads: nothing (or an empty item), something
      that fails to parse, or a parsed list, which is used as it is. */
  datatype StoredActions = NothingStored | Malformed | Parsed(actions: seq<RecentAction>)

  /** loadRecentActions. */
  function Load(stored: StoredActions): (r: seq<RecentAction>)
    ensures !stored.Parsed? ==> r == []
  {
    if stored.Parsed? then stored.actions else []
  }

  /** The filter predicate of addRecentAction: keep `x` when it shares
      neither the id nor the label of the new action. */
  function Unrelated(a: NewAction): RecentAction -> bool
  {
    (x: RecentAction) => x.id != a.id && x.caption != a.caption
  }

  /** The list after addRecentAction(a) at time `now`. */
  function Added(prev: seq<RecentAction>, a: NewAction, now: int): (r: seq<RecentAction>)
    ensures 0 < |r| <= MaxRecentActions
    ensures r[0] == RecentAction(a.id, a.caption, a.kind, now)
    ensures forall i :: 1 <= i < |r| ==> r[i].id != a.id && r[i].caption != a.caption
    // The earlier entries that share neither the id nor the label all stay,
    // in order, until the cap cuts them off.
    ensures var kept := Filter(prev, Unrelated(a));
            |r| == (if |kept| + 1 < MaxRecentActions then |kept| + 1 else MaxRecentActions) &&
            r[1..] == kept[..|r| - 1]
  {
    var kept := Filter(prev, Unrelated(a));
    var front := [RecentAction(a.id, a.caption, a.kind, now)] + kept;
    assert forall i :: 1 <= i < |front| ==> front[i] == kept[i - 1] && front[i] in kept;
    front[..if |front| < MaxRecentActions then |front| else MaxRecentActions]
  }

  /** The entries after the new one are earlier entries, in their earlier
      order. */
  lemma AddedKeepsOrder(prev: seq<RecentAction>, a: NewAction, now: int)
    ensures IsSubsequence(Added(prev, a, now)[1..], prev)
  {
    var kept := Filter(prev, Unrelated(a));
    var r := Added(prev, a, now);
    FilterIsSubsequence(prev, Unrelated(a));
    assert r[1..] == kept[..|r| - 1];
    PrefixOfSubsequence(kept, prev, |r| - 1);
  }

  /** When no earlier entry shares the id or the label, nothing is removed
      but the overflow: the list grows by one up to the cap, and the old
      entries follow the new one. */
  lemma AddedUnrelated(prev: seq<RecentAction>, a: NewAction, now: int)
    requires forall x :: x in prev ==> x.id != a.id && x.caption != a.caption
    ensures |Added(prev, a, now)| == if |prev| + 1 < MaxRecentActions then |prev| + 1 else MaxRecentActions
    ensures Added(prev, a, now)[1..] == prev[..|Added(prev, a, now)| - 1]
  {
    FilterKeepsAll(prev, Unrelated(a));
  }

  /** Re-adding the action at the front only refreshes its stamp. */
  lemma AddedAgain(prev: seq<RecentAction>, a: NewAction, t0: int, now: int)
    ensures Added(Added(prev, a, t0), a, now)[1..] == Added(prev, a, t0)[1..]
  {
    var r := Added(prev, a, t0);
    var kept := Filter(r, Unrelated(a));
    FilterKeepsAll(r[1..], Unrelated(a));
    assert r == [r[0]] + r[1..];
    assert kept == Filter(r[1..], Unrelated(a));
  }

  /** No two entries share an id or a label. */
  predicate Distinct(s: seq<RecentAction>)
  {
    s != [] ==>
      (forall x :: x in s[1..] ==> x.id != s[0].id && x.caption != s[0].caption) && Distinct(s[1..])
  }

  lemma {:induction false} FilterDistinct(s: seq<RecentAction>, keep: RecentAction -> bool)
    requires Distinct(s)
    ensures Distinct(Filter(s, keep))
  {
    if s != [] {
      FilterDistinct(s[1..], keep);
      if keep(s[0]) {
        assert Filter(s, keep)[1..] == Filter(s[1..], keep);
      }
    }
  }

  lemma {:induction false} PrefixDistinct(s: seq<RecentAction>, k: nat)
    requires Distinct(s) && k <= |s|
    ensures Distinct(s[..k])
  {
    if k > 0 {
      PrefixDistinct(s[1..], k - 1);
      assert s[..k][1..] == s[1..][..k - 1];
    }
  }

  /** Adding keeps a list free of shared ids and labels. */
  lemma AddedDistinct(prev: seq<RecentAction>, a: NewAction, now: int)
    requires Distinct(prev)
    ensures Distinct(Added(prev, a, now))
  {
    var kept := Filter(prev, Unrelated(a));
    var front := [RecentAction(a.id, a.caption, a.kind, now)] + kept;
    FilterDistinct(prev, Unrelated(a));
    assert front[1..] == kept;
    PrefixDistinct(front, |Added(prev, a, now)|);
  }

  /** The state cell of the hook. */
  class RecentActionsStore {
    var recentActions: seq<RecentAction>

    constructor(stored: StoredActions)
      ensures recentActions == Load(stored)
    {
      recentActions := Load(stored);
    }

    method AddRecentAction(a: NewAction, now: int)
      modifies this
      ensures recentActions == Added(old(recentActions), a, now)
      ensures |recentActions| <= MaxRecentActions
      ensures Distinct(old(recentActions)) ==> Distinct(recentActions)
    {
      if Distinct(recentActions) {
        AddedDistinct(recentActions, a, now);
      }
      recentActions := Added(recentActions, a, now);
    }

    method ClearRecentActions()
      modifies this
      ensures recentActions == []
    {
      recentActions := [];
    }
  }
}
