/** The bookkeeping of `scrape_comments` and `scroll_down`: which posts are opened, how the
    "Load more comments" loop counts, how extracted comment nodes fill the per-profile
    results, and when the scrolling loop stops. The browser is replaced by the sequences of
    outcomes it would report. */
module Scraper {
  import opened Wrappers
  import opened PySlice

  /** One rendered comment node: `Some((username, text))` when both lookups succeed,
      `None` when one of them raised NoSuchElementException or StaleElementReferenceException. */
  type Element = Option<(string, string)>

  /** What one profile yields: each username mapped to the texts collected for it, in order. */
  type Results = map<string, seq<string>>

  /** The outcome of one bounded wait for the "Load more comments" button. */
  datatype Poll = Clicked | Timeout

  /** What the browser shows once a post link is clicked: the outcomes of the successive
      waits for the "Load more comments" button, then the comment nodes found. */
  datatype PostView = PostView(polls: seq<Poll>, elements: seq<Element>)

  // ------------------------------------------------------------------ post selection

  /** The posts that are processed: every found post for -1, otherwise `found[:numPosts]`. */
  function SelectPosts<T>(found: seq<T>, numPosts: int): (r: seq<T>)
    ensures r <= found
    ensures numPosts == -1 ==> r == found
    ensures numPosts >= 0 ==> |r| == Min(numPosts, |found|)
    ensures numPosts < -1 ==> |r| == Max(0, |found| + numPosts)
  {
    if numPosts != -1 then Head(found, numPosts) else found
  }

  // ------------------------------------------------------------------ load more comments

  /** The number of clicks before the first timeout ends the waiting. */
  function ClicksBeforeTimeout(polls: seq<Poll>): (r: nat)
    requires Timeout in polls
    ensures r < |polls| && polls[r] == Timeout
    ensures forall j :: 0 <= j < r ==> polls[j] == Clicked
  {
    if polls[0] == Timeout then 0 else 1 + ClicksBeforeTimeout(polls[1..])
  }

  /** Three answered waits followed by a timeout give a counter of 3. */
  lemma ThreeClicksThenTimeout(rest: seq<Poll>)
    ensures ClicksBeforeTimeout([Clicked, Clicked, Clicked, Timeout] + rest) == 3
  {
    var polls := [Clicked, Clicked, Clicked, Timeout] + rest;
    assert polls[3] == Timeout;
  }

  /** The `while True` loop of lines 111-124: each iteration waits once; a timeout ends the
      loop, a click increments `load_more_count`. The loop only ends when some wait times
      out, which the precondition makes explicit. */
  method LoadMoreComments(polls: seq<Poll>) returns (count: nat)
    requires Timeout in polls
    ensures count < |polls| && polls[count] == Timeout
    ensures forall j :: 0 <= j < count ==> polls[j] == Clicked
    ensures count == ClicksBeforeTimeout(polls)
  {
    count := 0;
    while true
      invariant count < |polls| && Timeout in polls[count..]
      invariant forall j :: 0 <= j < count ==> polls[j] == Clicked
      decreases |polls| - count
    {
      if polls[count] == Timeout {
        break;
      }
      count := count + 1;
    }
  }

  // ------------------------------------------------------------------ comment accumulation

  /** A node whose lookups succeeded and whose username and text are both non-empty. */
  predicate Accepted(e: Element) {
    e.Some? && e.value.0 != "" && e.value.1 != ""
  }

  /** The texts stored for `u`, or none. */
  function Get(m: Results, u: string): seq<string> {
    if u in m then m[u] else []
  }

  /** Lines 139-141: create the user's list when absent, then append the text to it. */
  function Record(m: Results, u: string, t: string): (r: Results)
    ensures r.Keys == m.Keys + {u}
    ensures r[u] == Get(m, u) + [t]
    ensures forall v :: v in m && v != u ==> r[v] == m[v]
  {
    m[u := Get(m, u) + [t]]
  }

  /** One iteration of the comment loop: record an accepted node, skip any other. */
  function Step(m: Results, e: Element): Results {
    if Accepted(e) then Record(m, e.value.0, e.value.1) else m
  }

  /** `results` after the comment loop has run over `s`, starting from `m`. */
  function Accumulate(m: Results, s: seq<Element>): Results {
    if s == [] then m else Step(Accumulate(m, s[..|s| - 1]), s[|s| - 1])
  }

  /** Reference definition: the texts of the accepted nodes of `s` written by `u`, in order. */
  function TextsBy(u: string, s: seq<Element>): seq<string> {
    if s == [] then []
    else (if Accepted(s[0]) && s[0].value.0 == u then [s[0].value.1] else []) + TextsBy(u, s[1..])
  }

  lemma {:induction false} TextsByAppend(u: string, s: seq<Element>, e: Element)
    ensures TextsBy(u, s + [e]) == TextsBy(u, s) + TextsBy(u, [e])
  {
    if s != [] {
      assert (s + [e])[1..] == s[1..] + [e];
      TextsByAppend(u, s[1..], e);
    }
  }

  /** What the comment loop computes, user by user: a user has an entry exactly when it had
      one before or wrote an accepted node, and its list is the old list followed by the
      texts of its accepted nodes, in order, duplicates included. */
  lemma {:induction false} AccumulateSpec(m: Results, s: seq<Element>, u: string)
    ensures u in Accumulate(m, s) <==> u in m || TextsBy(u, s) != []
    ensures Get(Accumulate(m, s), u) == Get(m, u) + TextsBy(u, s)
  {
    if s != [] {
      var init, e := s[..|s| - 1], s[|s| - 1];
      assert s == init + [e];
      AccumulateSpec(m, init, u);
      TextsByAppend(u, init, e);
      assert [e][1..] == [];
    }
  }

  /** A node that is not accepted leaves `results` as it was. */
  lemma RejectedLeavesResults(m: Results, s: seq<Element>, e: Element)
    requires !Accepted(e)
    ensures Accumulate(m, s + [e]) == Accumulate(m, s)
  {
  }

  /** The same accepted comment extracted twice is stored twice. */
  lemma DuplicatesKept(m: Results, s: seq<Element>, u: string, t: string)
    requires u != "" && t != ""
    ensures Get(Accumulate(m, s + [Some((u, t)), Some((u, t))]), u) == Get(Accumulate(m, s), u) + [t, t]
  {
    var once := s + [Some((u, t))];
    assert (once + [Some((u, t))])[..|once|] == once;
    assert once[..|s|] == s;
    assert s + [Some((u, t)), Some((u, t))] == once + [Some((u, t))];
  }

  /** The results map is created once per profile, so the posts' loops compose. */
  lemma {:induction false} AccumulateAppend(m: Results, s1: seq<Element>, s2: seq<Element>)
    ensures Accumulate(m, s1 + s2) == Accumulate(Accumulate(m, s1), s2)
  {
    if s2 == [] {
      assert s1 + s2 == s1;
    } else {
      var init := s2[..|s2| - 1];
      assert (s1 + s2)[..|s1 + s2| - 1] == s1 + init;
      assert (s1 + s2)[|s1 + s2| - 1] == s2[|s2| - 1];
      AccumulateAppend(m, s1, init);
    }
  }

  /** Every stored username and text is non-empty and no user has an empty list. */
  predicate WellFormed(m: Results) {
    forall u :: u in m ==> u != "" && m[u] != [] && forall t :: t in m[u] ==> t != ""
  }

  lemma {:induction false} AccumulateWellFormed(m: Results, s: seq<Element>)
    requires WellFormed(m)
    ensures WellFormed(Accumulate(m, s))
  {
    if s != [] {
      AccumulateWellFormed(m, s[..|s| - 1]);
    }
  }

  /** The loop of lines 131-145 over the extracted comment nodes of one post. */
  method CollectComments(results: Results, elements: seq<Element>) returns (r: Results)
    ensures r == Accumulate(results, elements)
  {
    r := results;
    for i := 0 to |elements|
      invariant r == Accumulate(results, elements[..i])
    {
      match elements[i] {
        case None =>
          // the lookup raised: the node is skipped
        case Some((username, commentText)) =>
          if username != "" && commentText != "" {
            if username !in r {
              r := r[username := []];
            }
            r := r[username := r[username] + [commentText]];
          }
      }
      assert elements[..i + 1][..i] == elements[..i];
    }
    assert elements[..|elements|] == elements;
  }

  /** Every comment node of the posts, post after post. */
  function AllElements(posts: seq<PostView>): seq<Element> {
    if posts == [] then [] else AllElements(posts[..|posts| - 1]) + posts[|posts| - 1].elements
  }

  /** `scrape_comments` (lines 95-160) once the profile page has listed `found`: the selected
      posts are opened in order, each one's "Load more comments" loop runs to its timeout, and
      its comment nodes are added to one `results` map shared by all the posts. `clicks`
      holds the value `load_more_count` reaches for each post. */
  method ScrapeComments(found: seq<PostView>, numPosts: int) returns (results: Results, clicks: seq<nat>)
    requires forall p :: p in SelectPosts(found, numPosts) ==> Timeout in p.polls
    ensures results == Accumulate(map[], AllElements(SelectPosts(found, numPosts)))
    ensures WellFormed(results)
    ensures |clicks| == |SelectPosts(found, numPosts)|
    ensures forall i :: 0 <= i < |clicks| ==>
              clicks[i] == ClicksBeforeTimeout(SelectPosts(found, numPosts)[i].polls)
  {
    var posts := SelectPosts(found, numPosts);
    results := map[];
    clicks := [];
    for i := 0 to |posts|
      invariant results == Accumulate(map[], AllElements(posts[..i]))
      invariant |clicks| == i
      invariant forall k :: 0 <= k < i ==> clicks[k] == ClicksBeforeTimeout(posts[k].polls)
    {
      var post := posts[i];
      var loadMoreCount := LoadMoreComments(post.polls);
      clicks := clicks + [loadMoreCount];
      assert posts[..i + 1][..i] == posts[..i];
      AccumulateAppend(map[], AllElements(posts[..i]), post.elements);
      results := CollectComments(results, post.elements);
    }
    assert posts[..|posts|] == posts;
    AccumulateWellFormed(map[], AllElements(posts));
  }

  // ------------------------------------------------------------------ scrolling

  /** Some measured height equals the one before it, so the scrolling loop ends. */
  predicate Settles(heights: seq<int>) {
    exists i :: 1 <= i < |heights| && heights[i] == heights[i - 1]
  }

  /** `scroll_down` (lines 82-91): `heights[0]` is the first measurement and `heights[i]` the one
      taken after the i-th scroll. The loop stops at the first measurement equal to the
      previous `last_height`; `scrolls` is the number of scrolls done, and `lastHeight` the
      final `last_height`, which is only ever the newest earlier measurement. */
  method ScrollDown(heights: seq<int>) returns (scrolls: nat, lastHeight: int)
    requires Settles(heights)
    ensures 1 <= scrolls < |heights|
    ensures heights[scrolls - 1] == lastHeight && heights[scrolls] == lastHeight
    ensures forall j :: 1 <= j < scrolls ==> heights[j] != heights[j - 1]
  {
    lastHeight := heights[0];
    scrolls := 1;
    while true
      invariant 1 <= scrolls < |heights|
      invariant exists k :: scrolls <= k < |heights| && heights[k] == heights[k - 1]
      invariant lastHeight == heights[scrolls - 1]
      invariant forall j :: 1 <= j < scrolls ==> heights[j] != heights[j - 1]
      decreases |heights| - scrolls
    {
      var newHeight := heights[scrolls];
      if newHeight == lastHeight {
        break;
      }
      lastHeight := newHeight;
      scrolls := scrolls + 1;
    }
  }
}
