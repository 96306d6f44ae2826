/**
 * The repository feed: the list returned by the remote listing endpoint, the visibility
 * filter (no forks, not the site's own "portfolio" repository) and the optional cap.
 *
 * Home keeps the first three visible repositories (client/src/pages/Home.jsx:207-209);
 * Projects keeps all of them (client/src/pages/Projects.jsx:54-56). Both are instances of
 * the single-pass `FilterFeed`.
 */
module Repos {
  import opened Optional
  import Ascii

  /** One element of the listing response; only the fields the pages read. */
  datatype Repo = Repo(
    id: int,
    name: string,
    description: Option<string>,
    fork: bool,
    homepage: Option<string>,
    htmlUrl: string,
    stars: int,
    forks: int,
    openIssues: int,
    language: Option<string>)

  /** The repository that hosts the site itself, excluded whatever its capitalisation. */
  const ReservedName: string := "portfolio"

  /** The summary view's cap. */
  const HomeLimit: nat := 3

  /** `!repo.fork && repo.name.toLowerCase() !== "portfolio"` */
  predicate Listed(r: Repo) {
    !r.fork && Ascii.Lower(r.name) != ReservedName
  }

  /** `data.filter(Listed)`: keeps the listed repositories in their remote order. */
  function Keep(repos: seq<Repo>): (r: seq<Repo>)
    ensures |r| <= |repos|
    ensures forall x :: x in r ==> x in repos && Listed(x)
  {
    if |repos| == 0 then []
    else if Listed(repos[0]) then [repos[0]] + Keep(repos[1..])
    else Keep(repos[1..])
  }

  /** `s.slice(0, n)`: the first `n` elements, or all of `s` when it is shorter. */
  function Slice<T>(s: seq<T>, n: nat): (r: seq<T>)
    ensures |r| == if |s| <= n then |s| else n
    ensures forall i :: 0 <= i < |r| ==> r[i] == s[i]
  {
    if |s| <= n then s else s[..n]
  }

  /** The Home page's feed, written the way the page computes it: filter, then slice. */
  function HomeFeed(data: seq<Repo>): seq<Repo> {
    Slice(Keep(data), HomeLimit)
  }

  /** The Projects page's feed: filter only. */
  function ProjectsFeed(data: seq<Repo>): seq<Repo> {
    Keep(data)
  }

  /**
   * The unified feed: one pass over the remote list that keeps listed repositories
   * and stops once `limit` of them have been taken (no cap when `limit` is `None`).
   */
  function FilterFeed(repos: seq<Repo>, limit: Option<nat>): (r: seq<Repo>)
    ensures forall x :: x in r ==> x in repos && !x.fork && Ascii.Lower(x.name) != ReservedName
    ensures limit.Some? ==> |r| <= limit.value
    ensures |r| <= |repos|
  {
    if |repos| == 0 || limit == Some(0) then []
    else if Listed(repos[0]) then
      [repos[0]] + FilterFeed(repos[1..], if limit.Some? then Some(limit.value - 1) else None)
    else FilterFeed(repos[1..], limit)
  }

  /** Number of listed repositories in `repos`. */
  function CountListed(repos: seq<Repo>): nat {
    if |repos| == 0 then 0
    else (if Listed(repos[0]) then 1 else 0) + CountListed(repos[1..])
  }

  /** `a` occurs in `b` in order, possibly with gaps. */
  predicate Subsequence<T(==)>(a: seq<T>, b: seq<T>) {
    if |a| == 0 then true
    else if |b| == 0 then false
    else if a[0] == b[0] then Subsequence(a[1..], b[1..])
    else Subsequence(a, b[1..])
  }

  /** A feed cut off after `n` items is the first `n` items of the uncapped feed. */
  lemma {:induction false} FilterFeedIsCappedKeep(repos: seq<Repo>, n: nat)
    ensures FilterFeed(repos, Some(n)) == Slice(Keep(repos), n)
    decreases |repos|
  {
    if |repos| == 0 || n == 0 {
    } else if Listed(repos[0]) {
      FilterFeedIsCappedKeep(repos[1..], n - 1);
      var k := Keep(repos[1..]);
      assert Keep(repos) == [repos[0]] + k;
      if |k| <= n - 1 {
      } else {
        assert ([repos[0]] + k)[..n] == [repos[0]] + k[..n - 1];
      }
    } else {
      FilterFeedIsCappedKeep(repos[1..], n);
    }
  }

  /** Without a cap the unified feed is the plain filter. */
  lemma {:induction false} FilterFeedUncappedIsKeep(repos: seq<Repo>)
    ensures FilterFeed(repos, None) == Keep(repos)
    decreases |repos|
  {
    if |repos| > 0 {
      FilterFeedUncappedIsKeep(repos[1..]);
    }
  }

  /** Both call sites compute the unified feed: Home with a cap of 3, Projects with none. */
  lemma CallSitesAreFilterFeed(data: seq<Repo>)
    ensures HomeFeed(data) == FilterFeed(data, Some(3))
    ensures ProjectsFeed(data) == FilterFeed(data, None)
  {
    FilterFeedIsCappedKeep(data, 3);
    FilterFeedUncappedIsKeep(data);
  }

  /**
   * The Home feed holds exactly `min(3, k)` repositories, `k` being the number of listed
   * ones, and they are the first of the filtered list in their remote order.
   */
  lemma HomeFeedIsFirstThree(data: seq<Repo>)
    ensures |HomeFeed(data)| == if CountListed(data) <= 3 then CountListed(data) else 3
    ensures forall i :: 0 <= i < |HomeFeed(data)| ==> HomeFeed(data)[i] == Keep(data)[i]
    ensures forall x :: x in HomeFeed(data) ==> !x.fork && Ascii.Lower(x.name) != ReservedName
  {
    KeepLength(data);
  }

  /** The filtered list is as long as there are listed repositories. */
  lemma {:induction false} KeepLength(repos: seq<Repo>)
    ensures |Keep(repos)| == CountListed(repos)
    decreases |repos|
  {
    if |repos| > 0 {
      KeepLength(repos[1..]);
    }
  }

  /** A repository is in the filtered list exactly when it is in the input and listed. */
  lemma {:induction false} KeepMembership(repos: seq<Repo>, x: Repo)
    ensures x in Keep(repos) <==> x in repos && Listed(x)
    decreases |repos|
  {
    if |repos| > 0 {
      KeepMembership(repos[1..], x);
      assert repos == [repos[0]] + repos[1..];
    }
  }

  /** The filtered list keeps the remote order: it is a subsequence of the input. */
  lemma {:induction false} KeepIsSubsequence(repos: seq<Repo>)
    ensures Subsequence(Keep(repos), repos)
    decreases |repos|
  {
    if |repos| > 0 {
      KeepIsSubsequence(repos[1..]);
      if !Listed(repos[0]) {
        var k := Keep(repos[1..]);
        if |k| > 0 {
          assert k[0] in k;
        }
      }
    }
  }

  /**
   * The filtered list is the only one that is a subsequence of the input, holds listed
   * repositories only and holds as many as the input has: it is exactly the
   * order-preserving selection of the listed repositories.
   */
  lemma {:induction false} KeepIsUnique(a: seq<Repo>, repos: seq<Repo>)
    requires Subsequence(a, repos)
    requires forall x :: x in a ==> Listed(x)
    requires |a| == CountListed(repos)
    ensures a == Keep(repos)
    decreases |repos|
  {
    SubsequenceCountBound(a, repos);
    if |repos| == 0 {
    } else if |a| > 0 && a[0] == repos[0] {
      assert a[0] in a;
      assert Listed(repos[0]);
      assert forall x :: x in a[1..] ==> x in a;
      KeepIsUnique(a[1..], repos[1..]);
    } else {
      if Listed(repos[0]) {
        // `a` skips a listed repository, so it cannot reach the full count
        SubsequenceCountBound(a, repos[1..]);
        assert false;
      }
      KeepIsUnique(a, repos[1..]);
    }
  }

  /** A subsequence made of listed repositories has at most `CountListed` elements. */
  lemma {:induction false} SubsequenceCountBound(a: seq<Repo>, repos: seq<Repo>)
    requires Subsequence(a, repos)
    requires forall x :: x in a ==> Listed(x)
    ensures |a| <= CountListed(repos)
    decreases |repos|
  {
    if |a| == 0 {
    } else if a[0] == repos[0] {
      assert a[0] in a;
      assert forall x :: x in a[1..] ==> x in a;
      SubsequenceCountBound(a[1..], repos[1..]);
    } else {
      SubsequenceCountBound(a, repos[1..]);
    }
  }

  /** `filter` distributes over concatenation: each part is filtered on its own. */
  lemma {:induction false} KeepAppend(a: seq<Repo>, b: seq<Repo>)
    ensures Keep(a + b) == Keep(a) + Keep(b)
    decreases |a|
  {
    if |a| == 0 {
      assert a + b == b;
    } else {
      var ab := a + b;
      assert ab[0] == a[0];
      assert ab[1..] == a[1..] + b;
      KeepAppend(a[1..], b);
      if Listed(a[0]) {
        calc {
          Keep(ab);
          [a[0]] + Keep(a[1..] + b);
          [a[0]] + (Keep(a[1..]) + Keep(b));
          ([a[0]] + Keep(a[1..])) + Keep(b);
        }
      }
    }
  }

  /** A list that is all listed passes the filter unchanged, and only such a list does. */
  lemma {:induction false} KeepFixedPoint(repos: seq<Repo>)
    ensures Keep(repos) == repos <==> forall x :: x in repos ==> Listed(x)
    decreases |repos|
  {
    if |repos| > 0 {
      KeepFixedPoint(repos[1..]);
      assert repos == [repos[0]] + repos[1..];
      if !Listed(repos[0]) {
        assert |Keep(repos)| <= |repos[1..]| < |repos|;
      }
    }
  }

  /** Filtering an already filtered list returns it unchanged. */
  lemma KeepIdempotent(repos: seq<Repo>)
    ensures Keep(Keep(repos)) == Keep(repos)
  {
    KeepFixedPoint(Keep(repos));
  }

  /** Applying the unified feed to its own output, with the same cap, changes nothing. */
  lemma FilterFeedIdempotent(repos: seq<Repo>, limit: Option<nat>)
    ensures FilterFeed(FilterFeed(repos, limit), limit) == FilterFeed(repos, limit)
  {
    var r := FilterFeed(repos, limit);
    KeepFixedPoint(r);
    match limit {
      case None =>
        FilterFeedUncappedIsKeep(r);
      case Some(n) =>
        FilterFeedIsCappedKeep(r, n);
    }
  }

  /** The worked example of a listing response cut off at two items. */
  lemma ExampleFeed()
    ensures
      var data := [
        Repo(1, "Portfolio", None, false, None, "", 0, 0, 0, None),
        Repo(2, "app-x", None, true, None, "", 0, 0, 0, None),
        Repo(3, "api-y", None, false, None, "", 0, 0, 0, None),
        Repo(4, "site-z", None, false, None, "", 0, 0, 0, None)];
      FilterFeed(data, Some(2)) == [data[2], data[3]]
  {
    var data := [
      Repo(1, "Portfolio", None, false, None, "", 0, 0, 0, None),
      Repo(2, "app-x", None, true, None, "", 0, 0, 0, None),
      Repo(3, "api-y", None, false, None, "", 0, 0, 0, None),
      Repo(4, "site-z", None, false, None, "", 0, 0, 0, None)];
    assert Ascii.Lower(data[0].name) == ReservedName;
    assert Ascii.Lower(data[2].name)[0] == 'a';
    assert Ascii.Lower(data[3].name)[0] == 's';
    assert FilterFeed(data[3..], Some(1)) == [data[3]];
    assert FilterFeed(data[2..], Some(2)) == [data[2], data[3]];
  }
}
