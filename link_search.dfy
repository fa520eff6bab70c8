/** `LinkSearch`: finding new URLs for a query, page by page, without repeating any URL already
    stored, already seen in the caller's session, or already taken.

    The search engine is an oracle from a request to a reply: a list of result records (each a
    string-keyed record whose "href" entry is the URL) or a raised exception. The durable URL
    store is the set of URLs it already holds; `check_existing_urls(urls).get(url, False)` is
    membership in that set. The caller's `session_urls` set is an object the search updates in
    place. */
module Links {
  import opened Wrappers
  import opened TextUtil

  type Record = map<string, string>

  datatype Request = Request(query: string, maxResults: int, page: int, backend: string)

  datatype Reply = Page(results: seq<Record>) | Raised

  type Engine = Request -> Reply

  const DefaultBackend := "mullvad_google"
  const ResultsPerPage := 50
  const DefaultMaxAttempts := 6

  /** The query sent to the engine: the date filters are appended, `before` first, only when given
      (an empty string stands for a missing one, both being falsy). */
  function BuildQuery(query: string, before: string, after: string): string {
    var withBefore := if before != "" then query + (" before:" + before) else query;
    if after != "" then withBefore + (" after:" + after) else withBefore
  }

  /** The query keeps the caller's text in front; with no dates it is that text; a given `before`
      follows it directly, and a given `after` comes last. */
  lemma BuildQuerySpec(query: string, before: string, after: string)
    ensures var q := BuildQuery(query, before, after);
      && StartsWith(q, query)
      && (before == "" && after == "" ==> q == query)
      && (after != "" ==> EndsWith(q, " after:" + after))
      && (before != "" ==> OccursAt(q, " before:" + before, |query|))
      && (before != "" && after == "" ==> EndsWith(q, " before:" + before))
  {
    var b, a := " before:" + before, " after:" + after;
    var withBefore := if before != "" then query + b else query;
    if before != "" {
      ConcatParts(query, b);
    }
    if after != "" {
      ConcatParts(withBefore, a);
      var q := withBefore + a;
      assert q[..|query|] == withBefore[..|query|];
      if before != "" {
        assert q[|query|..|query| + |b|] == withBefore[|query|..|query| + |b|];
      }
    }
  }

  lemma ConcatParts(x: string, y: string)
    ensures StartsWith(x + y, x) && EndsWith(x + y, y) && OccursAt(x + y, y, |x|)
  {
    assert (x + y)[..|x|] == x;
    assert (x + y)[|x|..] == y;
    assert (x + y)[|x|..|x| + |y|] == y;
  }

  /** `search`: the engine's results when it returns a non-empty list; an empty list when it
      returns nothing or raises. */
  function Search(engine: Engine, query: string, numResults: int, page: int, before: string, after: string,
                  backend: string): (r: seq<Record>)
    ensures var reply := engine(Request(BuildQuery(query, before, after), numResults, page, backend));
      && (r != [] <==> reply.Page? && reply.results != [])
      && (r != [] ==> r == reply.results)
  {
    var reply := engine(Request(BuildQuery(query, before, after), numResults, page, backend));
    if reply.Page? && reply.results != [] then reply.results else []
  }

  /** `[result["href"] for result in results]`; a record without "href" raises KeyError (None). */
  function Hrefs(results: seq<Record>): (r: Option<seq<string>>)
    ensures r.Some? <==> forall i :: 0 <= i < |results| ==> "href" in results[i]
    ensures r.Some? ==> |r.value| == |results| && forall i :: 0 <= i < |results| ==> r.value[i] == results[i]["href"]
  {
    if results == [] then Some([])
    else
      var rest := Hrefs(results[1..]);
      assert forall i :: 1 <= i < |results| ==> results[i] == results[1..][i - 1];
      if "href" !in results[0] || rest.None? then None
      else Some([results[0]["href"]] + rest.value)
  }

  /** The page both search loops fetch: up to 50 results of the plain query. */
  function FetchPage(engine: Engine, query: string, page: int): seq<Record> {
    Search(engine, query, ResultsPerPage, page, "", "", DefaultBackend)
  }

  // ------------------------------------------------------------------ one page

  predicate NoDup(s: seq<string>) {
    forall i, j :: 0 <= i < j < |s| ==> s[i] != s[j]
  }

  /** `a` lists some of the elements of `b`, in the order they occur there. */
  predicate IsSubsequence(a: seq<string>, b: seq<string>)
    decreases |b|
  {
    a == [] || (b != [] && if a[0] == b[0] then IsSubsequence(a[1..], b[1..]) else IsSubsequence(a, b[1..]))
  }

  /** The loop over one page's URLs: a URL the store holds, the session holds, this page already
      took (`seen_in_batch`) or the earlier pages took is counted as a duplicate; any other URL is
      taken, and the page stops as soon as the earlier pages and this one together reach the
      target. `acc` and `skipped` are what the loop has taken and skipped so far. */
  function Batch(urls: seq<string>, db: set<string>, session: set<string>, unique: seq<string>, target: int,
                 acc: seq<string>, skipped: nat): (seq<string>, nat)
    decreases |urls|
  {
    if urls == [] then (acc, skipped)
    else
      var u := urls[0];
      if u in db || u in session || u in acc || u in unique then
        Batch(urls[1..], db, session, unique, target, acc, skipped + 1)
      else if |unique| + |acc| + 1 >= target then (acc + [u], skipped)
      else Batch(urls[1..], db, session, unique, target, acc + [u], skipped)
  }

  predicate Blocked(u: string, db: set<string>, session: set<string>, unique: seq<string>) {
    u in db || u in session || u in unique
  }

  lemma {:induction false} SubsequenceOfTail(a: seq<string>, b: seq<string>)
    requires b != [] && IsSubsequence(a, b[1..])
    ensures IsSubsequence(a, b)
    decreases |b|, 0
  {
    if a != [] && a[0] == b[0] {
      SubsequenceDropFirst(a, b[1..]);
    }
  }

  lemma {:induction false} SubsequenceDropFirst(a: seq<string>, b: seq<string>)
    requires a != [] && IsSubsequence(a, b)
    ensures IsSubsequence(a[1..], b)
    decreases |b|, 1
  {
    if a[0] == b[0] {
      SubsequenceOfTail(a[1..], b);
    } else {
      SubsequenceDropFirst(a, b[1..]);
      SubsequenceOfTail(a[1..], b);
    }
  }

  function Elements(s: seq<string>): set<string> {
    set k | 0 <= k < |s| :: s[k]
  }

  lemma ElementsAppend(s: seq<string>, x: string)
    ensures Elements(s + [x]) == Elements(s) + {x}
  {
    assert (s + [x])[|s|] == x;
    forall y | y in Elements(s) ensures y in Elements(s + [x]) {
      var k :| 0 <= k < |s| && s[k] == y;
      assert (s + [x])[k] == y;
    }
  }

  /** What one page contributes: the URLs it takes come after those taken so far, are new (in no
      store, not in the session, not taken before, not repeated) and appear in page order; the
      page stops at the target; and when it does not stop early every URL of the page was either
      taken or counted as a duplicate, and every new URL of the page was taken. */
  lemma {:induction false} BatchSpec(urls: seq<string>, db: set<string>, session: set<string>, unique: seq<string>,
                                     target: int, acc: seq<string>, skipped: nat)
    requires NoDup(acc) && forall k :: 0 <= k < |acc| ==> !Blocked(acc[k], db, session, unique)
    ensures var (out, n) := Batch(urls, db, session, unique, target, acc, skipped);
      && |acc| <= |out| && out[..|acc|] == acc && n >= skipped
      && NoDup(out) && (forall k :: 0 <= k < |out| ==> !Blocked(out[k], db, session, unique))
      && IsSubsequence(out[|acc|..], urls)
      && (n - skipped) + (|out| - |acc|) <= |urls|
      && (|unique| + |acc| < target ==> |unique| + |out| <= target)
      && (|unique| + |out| < target ==>
            && (n - skipped) + (|out| - |acc|) == |urls|
            && forall k :: 0 <= k < |urls| && !Blocked(urls[k], db, session, unique) ==> urls[k] in out)
    decreases |urls|
  {
    var (out, n) := Batch(urls, db, session, unique, target, acc, skipped);
    if urls == [] {
      assert out[|acc|..] == [];
    } else {
      var u := urls[0];
      var rest := urls[1..];
      assert forall k :: 1 <= k < |urls| ==> urls[k] == rest[k - 1];
      if u in db || u in session || u in acc || u in unique {
        BatchSpec(rest, db, session, unique, target, acc, skipped + 1);
        SubsequenceOfTail(out[|acc|..], urls);
      } else if |unique| + |acc| + 1 >= target {
        assert out == acc + [u];
        assert out[|acc|..] == [u];
        assert IsSubsequence([u][1..], rest);
      } else {
        var acc' := acc + [u];
        BatchSpec(rest, db, session, unique, target, acc', skipped);
        assert out[..|acc'|] == acc';
        assert out[|acc|] == u;
        assert out[|acc|..][1..] == out[|acc'|..];
      }
    }
  }

  /** The loop over one page's URLs, with the page's own `seen_in_batch` set. */
  method FilterBatch(urls: seq<string>, db: set<string>, session: set<string>, unique: seq<string>, target: int)
    returns (newUnique: seq<string>, batchDuplicates: nat)
    ensures (newUnique, batchDuplicates) == Batch(urls, db, session, unique, target, [], 0)
  {
    var seenInBatch: set<string> := {};
    newUnique, batchDuplicates := [], 0;
    var i := 0;
    while i < |urls|
      invariant 0 <= i <= |urls|
      invariant seenInBatch == Elements(newUnique)
      invariant Batch(urls[i..], db, session, unique, target, newUnique, batchDuplicates)
        == Batch(urls, db, session, unique, target, [], 0)
    {
      var url := urls[i];
      assert urls[i..][0] == url && urls[i..][1..] == urls[i + 1..];
      if url in db || url in session || url in seenInBatch || url in unique {
        batchDuplicates := batchDuplicates + 1;
        i := i + 1;
        continue;
      }
      assert url !in newUnique;
      ElementsAppend(newUnique, url);
      newUnique := newUnique + [url];
      seenInBatch := seenInBatch + {url};
      if |unique| + |newUnique| >= target {
        return;
      }
      i := i + 1;
    }
  }

  // ------------------------------------------------------------------ paging

  /** The loop's variables: what was taken, the session set, the attempt (= page) number, the size
      of the last page fetched and the duplicates counted. */
  datatype Progress = Progress(unique: seq<string>, session: set<string>, attempt: int, totalFound: int,
                               duplicates: int)

  datatype SearchInfo = SearchInfo(attempts: int, totalFound: int, duplicatesSkipped: int, uniqueFound: int,
                                   pagesSearched: int)

  /** One iteration of the paging loop, and whether the loop goes on. The next page is the next
      attempt number; a record without "href" raises and ends the loop before the page's size is
      recorded; an empty page ends it; otherwise the page's new URLs are taken, added to the
      session, and the loop ends when the target is reached. */
  function Step(engine: Engine, query: string, target: int, db: set<string>, st: Progress): (Progress, bool) {
    var attempt := st.attempt + 1;
    var hrefs := Hrefs(FetchPage(engine, query, attempt));
    if hrefs.None? then (st.(attempt := attempt), false)
    else
      var urls := hrefs.value;
      if |urls| == 0 then (st.(attempt := attempt, totalFound := 0), false)
      else
        var takenSkipped := Batch(urls, db, st.session, st.unique, target, [], 0);
        var taken := takenSkipped.0;
        var skipped := takenSkipped.1;
        var unique := st.unique + taken;
        (Progress(unique, st.session + Elements(taken), attempt, |urls|, st.duplicates + skipped),
         |unique| < target)
  }

  /** The paging loop: it runs while fewer than `target` URLs are taken and fewer than
      `maxAttempts` pages were tried. */
  function Run(engine: Engine, query: string, target: int, db: set<string>, maxAttempts: int, st: Progress): Progress
    decreases maxAttempts - st.attempt
  {
    if |st.unique| < target && st.attempt < maxAttempts then
      var nextGo := Step(engine, query, target, db, st);
      var next := nextGo.0;
      var go := nextGo.1;
      if go then Run(engine, query, target, db, maxAttempts, next) else next
    else st
  }

  function Start(session: set<string>): Progress {
    Progress([], session, 0, 0, 0)
  }

  /** What the paging loop keeps true: the taken URLs are distinct, none was in the store or in the
      session at the start, the session is its starting value plus the taken URLs, and no more than
      the target were taken. */
  ghost predicate Inv(st: Progress, db: set<string>, session0: set<string>, target: int) {
    && NoDup(st.unique)
    && (forall k :: 0 <= k < |st.unique| ==> st.unique[k] !in db && st.unique[k] !in session0)
    && st.session == session0 + Elements(st.unique)
    && |st.unique| <= Max(target, 0)
  }

  lemma StepSpec(engine: Engine, query: string, target: int, db: set<string>, session0: set<string>, st: Progress)
    requires Inv(st, db, session0, target) && |st.unique| < target
    ensures var (next, go) := Step(engine, query, target, db, st);
      && Inv(next, db, session0, target)
      && next.attempt == st.attempt + 1
      && |st.unique| <= |next.unique| && next.unique[..|st.unique|] == st.unique
      && next.duplicates >= st.duplicates
      && (Hrefs(FetchPage(engine, query, next.attempt)).Some? ==>
            next.totalFound == |Hrefs(FetchPage(engine, query, next.attempt)).value|)
  {
    var attempt := st.attempt + 1;
    var hrefs := Hrefs(FetchPage(engine, query, attempt));
    if hrefs.Some? && |hrefs.value| > 0 {
      var urls := hrefs.value;
      BatchSpec(urls, db, st.session, st.unique, target, [], 0);
      var (taken, skipped) := Batch(urls, db, st.session, st.unique, target, [], 0);
      assert taken[0..] == taken;
      AppendNew(st.unique, taken, db, st.session, session0);
    }
  }

  /** Appending a page's new URLs to the ones taken so far keeps them distinct and clear of the
      store and the starting session, and grows the set of taken URLs by the page's. */
  lemma AppendNew(unique: seq<string>, taken: seq<string>, db: set<string>, session: set<string>, session0: set<string>)
    requires NoDup(unique) && NoDup(taken) && session0 <= session
    requires forall k :: 0 <= k < |unique| ==> unique[k] !in db && unique[k] !in session0
    requires forall k :: 0 <= k < |taken| ==> !Blocked(taken[k], db, session, unique)
    ensures NoDup(unique + taken)
    ensures forall k :: 0 <= k < |unique + taken| ==> (unique + taken)[k] !in db && (unique + taken)[k] !in session0
    ensures Elements(unique + taken) == Elements(unique) + Elements(taken)
    ensures (unique + taken)[..|unique|] == unique
  {
    var all := unique + taken;
    forall i, j | 0 <= i < j < |all| ensures all[i] != all[j] {
      if j >= |unique| {
        assert all[j] == taken[j - |unique|];
        if i < |unique| {
          assert all[i] in unique;
        }
      }
    }
    forall x | x in Elements(all) ensures x in Elements(unique) + Elements(taken) {
      var k :| 0 <= k < |all| && all[k] == x;
      if k >= |unique| {
        assert taken[k - |unique|] == x;
      }
    }
    forall x | x in Elements(unique) ensures x in Elements(all) {
      var k :| 0 <= k < |unique| && unique[k] == x;
      assert all[k] == x;
    }
    forall x | x in Elements(taken) ensures x in Elements(all) {
      var k :| 0 <= k < |taken| && taken[k] == x;
      assert all[|unique| + k] == x;
    }
    forall k | 0 <= k < |all| ensures all[k] !in db && all[k] !in session0 {
      if k >= |unique| {
        assert all[k] == taken[k - |unique|];
      }
    }
  }

  /** The paging loop keeps `Inv`, only ever adds URLs at the end, counts its attempts (at most
      `maxAttempts`), and reports as `total_found` the size of the last page fetched (not a sum). */
  lemma {:induction false} RunSpec(engine: Engine, query: string, target: int, db: set<string>, maxAttempts: int,
                                   session0: set<string>, st: Progress)
    requires Inv(st, db, session0, target) && 0 <= st.attempt
    ensures var p := Run(engine, query, target, db, maxAttempts, st);
      && Inv(p, db, session0, target)
      && |st.unique| <= |p.unique| && p.unique[..|st.unique|] == st.unique
      && st.attempt <= p.attempt <= Max(st.attempt, maxAttempts)
      && (p.attempt == st.attempt ==> p == st)
      && p.duplicates >= st.duplicates
      && (p.attempt > st.attempt && Hrefs(FetchPage(engine, query, p.attempt)).Some? ==>
            p.totalFound == |Hrefs(FetchPage(engine, query, p.attempt)).value|)
    decreases maxAttempts - st.attempt
  {
    if |st.unique| < target && st.attempt < maxAttempts {
      var (next, go) := Step(engine, query, target, db, st);
      StepSpec(engine, query, target, db, session0, st);
      if go {
        RunSpec(engine, query, target, db, maxAttempts, session0, next);
        var p := Run(engine, query, target, db, maxAttempts, next);
        assert p.unique[..|next.unique|] == next.unique;
        assert p.unique[..|st.unique|] == next.unique[..|st.unique|];
      }
    }
  }

  /** The final result: the URLs taken, new to the store and to the session, distinct, at most
      `target` of them, with the session grown by exactly those URLs. */
  lemma UniqueUrlsSpec(engine: Engine, query: string, target: int, db: set<string>, maxAttempts: int,
                       session0: set<string>)
    ensures var p := Run(engine, query, target, db, maxAttempts, Start(session0));
      var urls := Take(p.unique, target);
      && urls == p.unique
      && NoDup(urls) && (forall k :: 0 <= k < |urls| ==> urls[k] !in db && urls[k] !in session0)
      && |urls| <= Max(target, 0)
      && p.session == session0 + Elements(urls)
      && 0 <= p.attempt <= Max(0, maxAttempts)
  {
    RunSpec(engine, query, target, db, maxAttempts, session0, Start(session0));
  }

  // ------------------------------------------------------------------ quick mode

  /** Quick mode: page 1 only. Its loop is the page loop above with nothing taken before (the
      check against earlier pages is then vacuous). A record without "href" raises and leaves
      nothing taken and `total_found` at 0. */
  function Quick(engine: Engine, query: string, target: int, db: set<string>, session0: set<string>): Progress {
    var hrefs := Hrefs(FetchPage(engine, query, 1));
    if hrefs.None? then Progress([], session0, 1, 0, 0)
    else
      var takenSkipped := Batch(hrefs.value, db, session0, [], target, [], 0);
      var taken := takenSkipped.0;
      var skipped := takenSkipped.1;
      Progress(taken, session0 + Elements(taken), 1, |hrefs.value|, skipped)
  }

  /** Quick mode takes only new, distinct URLs from page 1 in page order, adds all it took to the
      session, and returns at most `target` of them. With a target of 0 or less it still takes
      (and records in the session) the first new URL. */
  lemma QuickSpec(engine: Engine, query: string, target: int, db: set<string>, session0: set<string>)
    ensures var p := Quick(engine, query, target, db, session0);
      var urls := Take(p.unique, target);
      && NoDup(p.unique) && (forall k :: 0 <= k < |p.unique| ==> p.unique[k] !in db && p.unique[k] !in session0)
      && p.session == session0 + Elements(p.unique)
      && (target >= 0 ==> |urls| <= target) && p.attempt == 1
      && |p.unique| <= Max(target, 1)
      && (Hrefs(FetchPage(engine, query, 1)).Some? ==>
            IsSubsequence(p.unique, Hrefs(FetchPage(engine, query, 1)).value)
            && p.totalFound == |Hrefs(FetchPage(engine, query, 1)).value|)
      && (Hrefs(FetchPage(engine, query, 1)).None? ==> p.unique == [] && p.totalFound == 0 && p.session == session0)
  {
    var hrefs := Hrefs(FetchPage(engine, query, 1));
    if hrefs.Some? {
      BatchSpec(hrefs.value, db, session0, [], target, [], 0);
      var (taken, skipped) := Batch(hrefs.value, db, session0, [], target, [], 0);
      assert taken[0..] == taken;
      if |taken| > 1 {
        BatchBoundedAfterFirst(hrefs.value, db, session0, target);
      }
    }
  }

  /** With nothing taken before, a page never takes more than `max(target, 1)` URLs. */
  lemma BatchBoundedAfterFirst(urls: seq<string>, db: set<string>, session: set<string>, target: int)
    ensures |Batch(urls, db, session, [], target, [], 0).0| <= Max(target, 1)
  {
    if target >= 1 {
      BatchSpec(urls, db, session, [], target, [], 0);
    } else {
      BatchAtMostOneBelowTarget(urls, db, session, target, 0);
    }
  }

  lemma {:induction false} BatchAtMostOneBelowTarget(urls: seq<string>, db: set<string>, session: set<string>,
                                                     target: int, skipped: nat)
    requires target < 1
    ensures |Batch(urls, db, session, [], target, [], skipped).0| <= 1
    decreases |urls|
  {
    if urls != [] && (urls[0] in db || urls[0] in session) {
      BatchAtMostOneBelowTarget(urls[1..], db, session, target, skipped + 1);
    }
  }

  // ------------------------------------------------------------------ the searcher

  class UrlSet {
    var items: set<string>

    constructor (items: set<string>)
      ensures this.items == items
    {
      this.items := items;
    }
  }

  class LinkSearch {
    var excludedSites: seq<string>

    /** The exclusion list, or the default one when none (or an empty one) is given. */
    constructor (excludedSites: seq<string>)
      ensures this.excludedSites ==
        if excludedSites != [] then excludedSites
        else ["youtube.com", "britannica.com", "vimeo.com", "pinterest.com", "github.com", "github.blog"]
    {
      this.excludedSites := if excludedSites != [] then excludedSites
        else ["youtube.com", "britannica.com", "vimeo.com", "pinterest.com", "github.com", "github.blog"];
    }

    /** `search_unique_urls`. */
    method SearchUniqueUrls(query: string, targetCount: int, session: UrlSet, db: set<string>, maxAttempts: int,
                            engine: Engine) returns (urls: seq<string>, info: SearchInfo)
      modifies session
      ensures var p := Run(engine, query, targetCount, db, maxAttempts, Start(old(session.items)));
        && urls == Take(p.unique, targetCount) && session.items == p.session
        && info == SearchInfo(p.attempt, p.totalFound, p.duplicates, |p.unique|, p.attempt)
    {
      var uniqueUrls: seq<string> := [];
      var attempt := 0;
      var totalUrlsFound := 0;
      var duplicatesSkipped := 0;
      ghost var start := Start(session.items);
      while |uniqueUrls| < targetCount && attempt < maxAttempts
        invariant Run(engine, query, targetCount, db, maxAttempts,
                      Progress(uniqueUrls, session.items, attempt, totalUrlsFound, duplicatesSkipped))
          == Run(engine, query, targetCount, db, maxAttempts, start)
        decreases maxAttempts - attempt
      {
        ghost var st := Progress(uniqueUrls, session.items, attempt, totalUrlsFound, duplicatesSkipped);
        attempt := attempt + 1;
        var page := attempt;
        var results := Search(engine, query, ResultsPerPage, page, "", "", DefaultBackend);
        var hrefs := Hrefs(results);
        if hrefs.None? {
          assert Step(engine, query, targetCount, db, st)
            == (Progress(uniqueUrls, session.items, attempt, totalUrlsFound, duplicatesSkipped), false);
          break;
        }
        var pageUrls := hrefs.value;
        totalUrlsFound := |pageUrls|;
        if |pageUrls| == 0 {
          assert Step(engine, query, targetCount, db, st)
            == (Progress(uniqueUrls, session.items, attempt, totalUrlsFound, duplicatesSkipped), false);
          break;
        }
        var newUniqueUrls, batchDuplicates := FilterBatch(pageUrls, db, session.items, uniqueUrls, targetCount);
        duplicatesSkipped := duplicatesSkipped + batchDuplicates;
        uniqueUrls := uniqueUrls + newUniqueUrls;
        session.items := session.items + Elements(newUniqueUrls);
        if |uniqueUrls| >= targetCount {
          assert Step(engine, query, targetCount, db, st)
            == (Progress(uniqueUrls, session.items, attempt, totalUrlsFound, duplicatesSkipped), false);
          break;
        }
        assert Step(engine, query, targetCount, db, st)
          == (Progress(uniqueUrls, session.items, attempt, totalUrlsFound, duplicatesSkipped), true);
      }
      urls := Take(uniqueUrls, targetCount);
      info := SearchInfo(attempt, totalUrlsFound, duplicatesSkipped, |uniqueUrls|, attempt);
    }

    /** `search_urls_quick_mode`. */
    method SearchUrlsQuickMode(query: string, targetCount: int, session: UrlSet, db: set<string>, engine: Engine)
      returns (urls: seq<string>, info: SearchInfo)
      modifies session
      ensures var p := Quick(engine, query, targetCount, db, old(session.items));
        && urls == Take(p.unique, targetCount) && session.items == p.session
        && info == SearchInfo(1, p.totalFound, p.duplicates, |p.unique|, 1)
    {
      var uniqueUrls: seq<string> := [];
      var duplicatesSkipped := 0;
      var totalUrlsFound := 0;
      var results := Search(engine, query, ResultsPerPage, 1, "", "", DefaultBackend);
      var hrefs := Hrefs(results);
      if hrefs.Some? {
        var pageUrls := hrefs.value;
        totalUrlsFound := |pageUrls|;
        uniqueUrls, duplicatesSkipped := FilterBatch(pageUrls, db, session.items, [], targetCount);
        session.items := session.items + Elements(uniqueUrls);
      }
      urls := Take(uniqueUrls, targetCount);
      info := SearchInfo(1, totalUrlsFound, duplicatesSkipped, |uniqueUrls|, 1);
    }
  }
}
