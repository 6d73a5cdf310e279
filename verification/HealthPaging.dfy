/** What a health report counts. */
module HealthSummary {
  import opened Foundation

  datatype Pod = Pod(namespace: string, name: string, phase: string, ready: bool)

  datatype Summary = Summary(total: nat, running: nat, pending: nat, failed: nat, succeeded: nat, unknown: nat,
                             notReady: nat)

  function CountPhase(pods: seq<Pod>, phase: string): nat {
    if pods == [] then 0 else CountPhase(pods[..|pods| - 1], phase) + if pods[|pods| - 1].phase == phase then 1 else 0
  }

  function NotReady(pods: seq<Pod>): seq<Pod> {
    if pods == [] then [] else NotReady(pods[..|pods| - 1]) + if pods[|pods| - 1].ready then [] else [pods[|pods| - 1]]
  }

  /** The counters say what their names say; whatever has no known phase is unknown, so the phases add up. */
  predicate Counts(s: Summary, pods: seq<Pod>) {
    && s.total == |pods| && s.notReady == |NotReady(pods)|
    && s.running == CountPhase(pods, "Running") && s.pending == CountPhase(pods, "Pending")
    && s.failed == CountPhase(pods, "Failed") && s.succeeded == CountPhase(pods, "Succeeded")
    && s.total == s.running + s.pending + s.failed + s.succeeded + s.unknown
  }

  function Counted(s: Summary, pod: Pod): Summary {
    var t := s.(total := s.total + 1, notReady := s.notReady + if pod.ready then 0 else 1);
    if pod.phase == "Running" then t.(running := t.running + 1)
    else if pod.phase == "Pending" then t.(pending := t.pending + 1)
    else if pod.phase == "Failed" then t.(failed := t.failed + 1)
    else if pod.phase == "Succeeded" then t.(succeeded := t.succeeded + 1)
    else t.(unknown := t.unknown + 1)
  }

  function Tally(pods: seq<Pod>): Summary {
    if pods == [] then Summary(0, 0, 0, 0, 0, 0, 0) else Counted(Tally(pods[..|pods| - 1]), pods[|pods| - 1])
  }

  lemma {:induction false} TallyCounts(pods: seq<Pod>)
    ensures Counts(Tally(pods), pods)
  {
    if pods != [] {
      TallyCounts(pods[..|pods| - 1]);
    }
  }

  function Chosen(pods: seq<Pod>, onlyNotReady: bool): seq<Pod> {
    if onlyNotReady then NotReady(pods) else pods
  }

  lemma OneMore(pods: seq<Pod>, pod: Pod, onlyNotReady: bool)
    ensures Tally(pods + [pod]) == Counted(Tally(pods), pod)
    ensures Chosen(pods + [pod], onlyNotReady) ==
            Chosen(pods, onlyNotReady) + if onlyNotReady && pod.ready then [] else [pod]
  {
    assert (pods + [pod])[..|pods|] == pods;
  }

  /** In it are exactly the pods that are not ready, each as often as before. */
  lemma {:induction false} NotReadyExactly(pods: seq<Pod>, pod: Pod)
    ensures multiset(NotReady(pods))[pod] == if pod.ready then 0 else multiset(pods)[pod]
  {
    if pods != [] {
      var init, last := pods[..|pods| - 1], pods[|pods| - 1];
      NotReadyExactly(init, pod);
      assert pods == init + [last];
    }
  }

  /** All listed pods, namespace after namespace. */
  function Listed(lists: seq<Option<seq<Pod>>>): seq<Pod> {
    if lists == [] then []
    else Listed(lists[..|lists| - 1]) + if lists[|lists| - 1].Some? then lists[|lists| - 1].value else []
  }

  lemma {:induction false} ListedAll(pods: seq<seq<Pod>>)
    ensures Listed(seq(|pods|, i requires 0 <= i < |pods| => Some(pods[i]))) == Flatten(pods)
  {
    var lists := seq(|pods|, i requires 0 <= i < |pods| => Some(pods[i]));
    if pods != [] {
      var init := pods[..|pods| - 1];
      ListedAll(init);
      assert lists[..|lists| - 1] == seq(|init|, i requires 0 <= i < |init| => Some(init[i]));
    }
  }

  lemma ListedSnoc(lists: seq<Option<seq<Pod>>>, n: nat)
    requires n < |lists| && lists[n].Some?
    ensures Listed(lists[..n + 1]) == Listed(lists[..n]) + lists[n].value
  {
    assert lists[..n + 1][..n] == lists[..n];
  }
}

/** Health reports: counting pods by phase and readiness, and cutting the report into pages. */
module HealthPaging {
  import opened Foundation
  import opened HealthSummary

  datatype Page = Page(number: nat, count: nat, summary: Summary, pods: seq<Pod>)

  /** The inner loop, over one namespace listing that follows the pods `seen` so far. */
  method CountList(list: seq<Pod>, onlyNotReady: bool, collected0: seq<Pod>, summary0: Summary, ghost seen: seq<Pod>)
    returns (collected: seq<Pod>, summary: Summary)
    requires summary0 == Tally(seen) && collected0 == Chosen(seen, onlyNotReady)
    ensures summary == Tally(seen + list) && collected == Chosen(seen + list, onlyNotReady)
  {
    collected, summary := collected0, summary0;
    ghost var done := seen;
    var i := 0;
    while i < |list|
      invariant 0 <= i <= |list| && done == seen + list[..i]
      invariant summary == Tally(done) && collected == Chosen(done, onlyNotReady)
    {
      OneMore(done, list[i], onlyNotReady);
      summary := Counted(summary, list[i]);
      if !(onlyNotReady && list[i].ready) {
        collected := collected + [list[i]];
      }
      done := done + [list[i]];
      i := i + 1;
    }
    assert list[..i] == list;
  }

  /** `lists` holds one namespace listing after the other, None for a failed call. */
  method CollectPods(lists: seq<Option<seq<Pod>>>, onlyNotReady: bool)
    returns (ok: bool, collected: seq<Pod>, summary: Summary)
    ensures ok <==> forall i :: 0 <= i < |lists| ==> lists[i].Some?
    ensures ok ==> Counts(summary, Listed(lists)) && collected == Chosen(Listed(lists), onlyNotReady)
    ensures ok ==> |collected| == if onlyNotReady then summary.notReady else summary.total
  {
    collected, summary := [], Summary(0, 0, 0, 0, 0, 0, 0);
    var n := 0;
    assert lists[..0] == [];
    while n < |lists|
      invariant 0 <= n <= |lists| && forall i :: 0 <= i < n ==> lists[i].Some?
      invariant summary == Tally(Listed(lists[..n])) && collected == Chosen(Listed(lists[..n]), onlyNotReady)
    {
      if lists[n].None? {
        ok := false;
        return;
      }
      collected, summary := CountList(lists[n].value, onlyNotReady, collected, summary, Listed(lists[..n]));
      ListedSnoc(lists, n);
      n := n + 1;
    }
    assert lists[..n] == lists;
    TallyCounts(Listed(lists));
    ok := true;
  }

  // ----- Paging ---------------------------------------------------------------------------------

  /** The limit of the request, or the manager's default when the request has none. */
  function PageLimit(requested: int, defaultMax: int): (limit: nat)
    ensures requested >= 1 ==> limit == requested
    ensures requested < 1 && defaultMax >= 1 ==> limit == defaultMax
    ensures requested < 1 && defaultMax < 1 ==> limit == 500
  {
    if requested >= 1 then requested else if defaultMax >= 1 then defaultMax else 500
  }

  function PodsOf(pages: seq<Page>): seq<seq<Pod>> {
    seq(|pages|, i requires 0 <= i < |pages| => pages[i].pods)
  }

  /** All the pods of the report, page after page. */
  function Paged(pages: seq<Page>): seq<Pod> {
    Flatten(PodsOf(pages))
  }

  lemma PagedSnoc(pages: seq<Page>, page: Page)
    ensures Paged(pages + [page]) == Paged(pages) + page.pods
  {
    FlattenSnoc(PodsOf(pages), page.pods);
    assert PodsOf(pages + [page]) == PodsOf(pages) + [page.pods];
  }

  /** How many pages of `limit` pods hold `n` pods. */
  function PageCount(n: nat, limit: nat): (count: nat)
    requires limit >= 1
    ensures n == 0 ==> count == 1
    ensures n > 0 ==> count >= 1 && (count - 1) * limit < n <= count * limit
  {
    if n == 0 then 1
    else
      var count := (n + limit - 1) / limit;
      assert count * limit <= n + limit - 1 < count * limit + limit;
      assert (count - 1) * limit == count * limit - limit;
      assert count >= 1 by {
        assert n + limit - 1 >= limit;
      }
      count
  }

  predicate PageOf(pods: seq<Pod>, summary: Summary, limit: nat, count: nat, i: nat, page: Page) {
    && page.number == i + 1 && page.count == count && page.summary == summary && |page.pods| <= limit
    && (i + 1 < count ==> |page.pods| == limit)
    && (page.pods == [] <==> pods == [])
  }

  lemma PageStart(n: nat, limit: nat, page: nat)
    requires limit >= 1 && page < PageCount(n, limit)
    ensures n > 0 ==> page * limit < n
    ensures n == 0 ==> page * limit == 0
    ensures page + 1 < PageCount(n, limit) ==> page * limit + limit < n
    ensures page + 1 == PageCount(n, limit) ==> page * limit + limit >= n
    ensures (page + 1) * limit == page * limit + limit
  {
    var count := PageCount(n, limit);
    assert (page + 1) * limit == page * limit + limit;
    if page + 1 < count {
      MulMono(page + 1, count - 1, limit);
    }
  }

  lemma MulMono(a: nat, b: nat, c: nat)
    requires a <= b
    ensures a * c <= b * c
  {
    assert b * c == a * c + (b - a) * c;
  }

  /** The loop over the pages: in range, within the limit, full except for the last, and together all pods in order. */
  method CutPages(pods: seq<Pod>, summary: Summary, limit: nat) returns (pages: seq<Page>)
    requires limit >= 1
    ensures |pages| == PageCount(|pods|, limit) && Paged(pages) == pods
    ensures forall i :: 0 <= i < |pages| ==> PageOf(pods, summary, limit, |pages|, i, pages[i])
  {
    hide PageCount;
    var count := PageCount(|pods|, limit);
    pages := [];
    assert Paged(pages) == pods[..0];
    hide Paged;
    var page, sent := 0, 0;
    while page < count
      invariant 0 <= page <= count && |pages| == page && sent <= |pods|
      invariant if page < count then sent == page * limit else sent == |pods|
      invariant Paged(pages) == pods[..sent]
      invariant forall i :: 0 <= i < page ==> PageOf(pods, summary, limit, count, i, pages[i])
    {
      PageStart(|pods|, limit, page);
      var start := page * limit;
      var end := start + limit;
      if end > |pods| {
        end := |pods|;
      }
      var msg := Page(page + 1, count, summary, pods[start..end]);
      PagedSnoc(pages, msg);
      assert pods[..start] + pods[start..end] == pods[..end];
      pages := pages + [msg];
      page, sent := page + 1, end;
    }
    assert pods[..sent] == pods;
  }

  /**
   One report: nothing is published if a namespace listing fails; otherwise at least one page, all with the same
   true counters, and together the listed or the not-ready pods in order, as many as the counter says.
   */
  method PublishOnce(lists: seq<Option<seq<Pod>>>, onlyNotReady: bool, requested: int, defaultMax: int)
    returns (pages: seq<Page>)
    ensures pages == [] <==> exists i :: 0 <= i < |lists| && lists[i].None?
    ensures pages != [] ==>
              var pods, s := Chosen(Listed(lists), onlyNotReady), pages[0].summary;
              var limit := PageLimit(requested, defaultMax);
              && Paged(pages) == pods && |pages| == PageCount(|pods|, limit)
              && Counts(s, Listed(lists)) && |Paged(pages)| == (if onlyNotReady then s.notReady else s.total)
              && forall i :: 0 <= i < |pages| ==> PageOf(pods, s, limit, |pages|, i, pages[i])
  {
    var ok, collected, summary := CollectPods(lists, onlyNotReady);
    if !ok {
      return [];
    }
    pages := CutPages(collected, summary, PageLimit(requested, defaultMax));
    assert PageOf(collected, summary, PageLimit(requested, defaultMax), |pages|, 0, pages[0]);
  }
}
