/** The notification centre: the notification list split into its priority,
    status and news sections. */
module NotificationCenter {
  import opened Seqs
  import opened Types

  predicate IsPriority(n: NotificationItem) { n.kind == Priority }
  predicate IsStatus(n: NotificationItem) { n.kind == Status }
  predicate IsNews(n: NotificationItem) { n.kind == News }

  /** The urgent section. */
  function PriorityItems(ns: seq<NotificationItem>): (r: seq<NotificationItem>)
    ensures forall i :: 0 <= i < |r| ==> IsPriority(r[i]) && r[i] in ns
  {
    Filter(IsPriority, ns)
  }

  /** The applications section. */
  function StatusItems(ns: seq<NotificationItem>): (r: seq<NotificationItem>)
    ensures forall i :: 0 <= i < |r| ==> IsStatus(r[i]) && r[i] in ns
  {
    Filter(IsStatus, ns)
  }

  /** The news section. */
  function NewsItems(ns: seq<NotificationItem>): (r: seq<NotificationItem>)
    ensures forall i :: 0 <= i < |r| ==> IsNews(r[i]) && r[i] in ns
  {
    Filter(IsNews, ns)
  }

  /** Each section holds exactly the items of its own type, each as often as
      it occurs in the list, and in the list's order. */
  lemma SectionsExact(ns: seq<NotificationItem>, n: NotificationItem)
    ensures multiset(PriorityItems(ns))[n] == if n.kind == Priority then multiset(ns)[n] else 0
    ensures multiset(StatusItems(ns))[n] == if n.kind == Status then multiset(ns)[n] else 0
    ensures multiset(NewsItems(ns))[n] == if n.kind == News then multiset(ns)[n] else 0
    ensures SubsequenceOf(PriorityItems(ns), ns)
    ensures SubsequenceOf(StatusItems(ns), ns)
    ensures SubsequenceOf(NewsItems(ns), ns)
  {
    FilterMultiplicity(IsPriority, ns, n);
    FilterMultiplicity(IsStatus, ns, n);
    FilterMultiplicity(IsNews, ns, n);
    FilterSubsequence(IsPriority, ns);
    FilterSubsequence(IsStatus, ns);
    FilterSubsequence(IsNews, ns);
  }

  /** The three sections partition the list: together they hold every item
      exactly once, because a notification has one of three types. */
  lemma SectionsPartition(ns: seq<NotificationItem>)
    ensures multiset(PriorityItems(ns)) + multiset(StatusItems(ns)) + multiset(NewsItems(ns)) == multiset(ns)
    ensures |PriorityItems(ns)| + |StatusItems(ns)| + |NewsItems(ns)| == |ns|
  {
    var p, s, w := PriorityItems(ns), StatusItems(ns), NewsItems(ns);
    var all := multiset(p) + multiset(s) + multiset(w);
    forall n ensures all[n] == multiset(ns)[n] {
      SectionsExact(ns, n);
    }
    assert all == multiset(ns);
    calc {
      |p| + |s| + |w|;
      |multiset(p)| + |multiset(s)| + |multiset(w)|;
      |all|;
      |multiset(ns)|;
      |ns|;
    }
  }

  /** A section is drawn exactly when some notification has its type. */
  lemma SectionShownIff(ns: seq<NotificationItem>)
    ensures |PriorityItems(ns)| > 0 <==> exists i :: 0 <= i < |ns| && ns[i].kind == Priority
    ensures |StatusItems(ns)| > 0 <==> exists i :: 0 <= i < |ns| && ns[i].kind == Status
    ensures |NewsItems(ns)| > 0 <==> exists i :: 0 <= i < |ns| && ns[i].kind == News
  {
    FilterEmptyIff(IsPriority, ns);
    FilterEmptyIff(IsStatus, ns);
    FilterEmptyIff(IsNews, ns);
  }
}
