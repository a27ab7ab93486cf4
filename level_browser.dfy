/** The level browser: a case-insensitive search over title, description
    and difficulty, pages of six, and the prev/next buttons. */
module LevelBrowser {
  import opened Common
  import opened Levels

  const PageSize: nat := 6

  /** `toLowerCase` on one character (ASCII letters only). */
  function LowerChar(c: char): (d: char)
    ensures !('A' <= d <= 'Z')
    ensures !('A' <= c <= 'Z') ==> d == c
  {
    if 'A' <= c <= 'Z' then (c as int - 'A' as int + 'a' as int) as char else c
  }

  function Lower(s: string): (t: string)
    ensures |t| == |s|
  {
    seq(|s|, i requires 0 <= i < |s| => LowerChar(s[i]))
  }

  /** Lowering twice is lowering once. */
  lemma LowerTwice(s: string)
    ensures Lower(Lower(s)) == Lower(s)
  {
    forall i | 0 <= i < |s| ensures Lower(Lower(s))[i] == Lower(s)[i] {
      assert Lower(s)[i] == LowerChar(s[i]);
    }
  }

  /** `q` occurs in `s` starting at index `i`. */
  predicate OccursAt(s: string, q: string, i: nat)
  {
    i + |q| <= |s| && s[i..i + |q|] == q
  }

  /** `s.includes(q)`: `q` occurs in `s` at some position. */
  predicate Includes(s: string, q: string)
    ensures Includes(s, q) ==> |q| <= |s|
  {
    exists i: nat :: i <= |s| && OccursAt(s, q, i)
  }

  /** Every string includes the empty string. */
  lemma IncludesEmpty(s: string)
    ensures Includes(s, "")
  {
    assert OccursAt(s, "", 0);
  }

  /** The search test: the lower-cased query occurs in the lower-cased
      title, description or difficulty. */
  predicate Matches(l: Level, query: string)
    ensures query == "" ==> Matches(l, query)
  {
    assert Lower("") == "";
    IncludesEmpty(Lower(l.title));
    var q := Lower(query);
    Includes(Lower(l.title), q) || Includes(Lower(l.description), q) ||
    Includes(Lower(DifficultyName(l.difficulty)), q)
  }

  /** Case does not matter in the query. */
  lemma QueryCaseIgnored(l: Level, query: string)
    ensures Matches(l, query) == Matches(l, Lower(query))
  {
    LowerTwice(query);
  }

  /** `levels.filter(...)`: the matching levels, in catalog order. */
  function Filtered(levels: seq<Level>, query: string): (r: seq<Level>)
    ensures |r| <= |levels|
    ensures forall l :: l in r <==> l in levels && Matches(l, query)
  {
    if |levels| == 0 then []
    else (if Matches(levels[0], query) then [levels[0]] else []) + Filtered(levels[1..], query)
  }

  /** `a` is `b` with some elements left out, the rest in the same order. */
  predicate Subsequence(a: seq<Level>, b: seq<Level>)
    decreases |b|
  {
    if |a| == 0 then true
    else if |b| == 0 then false
    else (a[0] == b[0] && Subsequence(a[1..], b[1..])) || Subsequence(a, b[1..])
  }

  /** The search result keeps the catalog's order. */
  lemma {:induction false} FilteredInOrder(levels: seq<Level>, query: string)
    ensures Subsequence(Filtered(levels, query), levels)
  {
    if |levels| > 0 {
      FilteredInOrder(levels[1..], query);
      var rest := Filtered(levels[1..], query);
      if Matches(levels[0], query) {
        assert Filtered(levels, query) == [levels[0]] + rest;
        assert ([levels[0]] + rest)[1..] == rest;
      } else {
        assert Filtered(levels, query) == rest;
        if |rest| > 0 {
          assert Subsequence(rest, levels[1..]);
        }
      }
    }
  }

  /** An empty search shows every level. */
  lemma {:induction false} EmptyQueryKeepsAll(levels: seq<Level>)
    ensures Filtered(levels, "") == levels
  {
    if |levels| > 0 {
      IncludesEmpty(Lower(levels[0].title));
      assert Lower("") == "";
      assert Matches(levels[0], "");
      EmptyQueryKeepsAll(levels[1..]);
      assert levels == [levels[0]] + levels[1..];
    }
  }

  /** `Math.ceil(n / PAGE_SIZE)`: the fewest pages of six that hold `n` items. */
  function TotalPages(n: nat): (t: nat)
    ensures t * PageSize >= n
    ensures t > 0 ==> (t - 1) * PageSize < n
  {
    (n + PageSize - 1) / PageSize
  }

  /** The index `Array.prototype.slice` makes of a bound `k`: negative
      counts from the end, and both ends clamp to the array. */
  function SliceBound(k: int, n: nat): (r: nat)
    ensures r <= n
  {
    if k < 0 then (if n + k < 0 then 0 else n + k) else if k > n then n else k
  }

  function Slice<T>(s: seq<T>, start: int, end: int): (r: seq<T>)
    ensures 0 <= start <= |s| && start <= end ==> r == s[start..if end < |s| then end else |s|]
  {
    var lo, hi := SliceBound(start, |s|), SliceBound(end, |s|);
    if lo <= hi then s[lo..hi] else []
  }

  /** The levels shown on page `page`. */
  function PageItems(filtered: seq<Level>, page: int): (r: seq<Level>)
    ensures |r| <= PageSize
    ensures 0 <= page && page * PageSize <= |filtered| ==>
              r == filtered[page * PageSize..if page * PageSize + PageSize < |filtered| then page * PageSize + PageSize else |filtered|]
  {
    Slice(filtered, page * PageSize, page * PageSize + PageSize)
  }

  /** The pages together show every result exactly where it belongs:
      result `i` is item `i % 6` of page `i / 6`, and that page exists. */
  lemma EveryResultOnItsPage(filtered: seq<Level>, i: nat)
    requires i < |filtered|
    ensures i / PageSize < TotalPages(|filtered|)
    ensures i % PageSize < |PageItems(filtered, i / PageSize)|
    ensures PageItems(filtered, i / PageSize)[i % PageSize] == filtered[i]
  {
    var p := i / PageSize;
    assert p * PageSize + i % PageSize == i;
    assert p * PageSize <= i;
  }

  /** The browser's state: the query and the page shown. */
  datatype Browser = Browser(query: string, page: int)

  /** Typing a query goes back to the first page. */
  function SetQuery(b: Browser, q: string): (c: Browser)
    ensures c.query == q && c.page == 0
  {
    Browser(q, 0)
  }

  /** The Prev button's updater. */
  function PrevPage(p: int): (r: int)
    ensures r >= 0
    ensures p > 0 ==> r == p - 1
  {
    if p - 1 < 0 then 0 else p - 1
  }

  /** The Next button's updater. */
  function NextPage(p: int, total: int): (r: int)
    ensures r <= total - 1
    ensures p + 1 <= total - 1 ==> r == p + 1
  {
    if total - 1 < p + 1 then total - 1 else p + 1
  }

  predicate PrevDisabled(page: int)
  {
    page == 0
  }

  predicate NextDisabled(page: int, total: int)
  {
    page >= total - 1
  }

  /** The "Page x / y" indicator's `y`: never below one. */
  function PagesShown(total: nat): (y: nat)
    ensures y >= 1 && y >= total
  {
    if total < 1 then 1 else total
  }

  /** A page the browser can be on: the first one, or one that exists. */
  predicate PageValid(page: int, total: nat)
  {
    page == 0 || 0 <= page < total
  }

  /** Each button, pressed while enabled, keeps the page valid and so
      does changing the query; an enabled Next means there is a next page. */
  lemma ButtonsKeepPageValid(b: Browser, total: nat, q: string)
    requires PageValid(b.page, total)
    ensures !PrevDisabled(b.page) ==> PageValid(PrevPage(b.page), total)
    ensures !NextDisabled(b.page, total) ==>
              PageValid(NextPage(b.page, total), total) && NextPage(b.page, total) == b.page + 1
    ensures PageValid(SetQuery(b, q).page, total)
  {
  }
}
