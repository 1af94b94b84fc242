/**
  * `search_and_fetch`: the results of every query are pooled without empty
  * or repeated URLs, ranked by how many of the first query's words they
  * mention, and the top pages are fetched and truncated. The search
  * providers and the page fetcher are network calls; their outcomes are
  * inputs here.
  */
module Search {
  import opened Wrappers
  import opened Text

  /** One search hit as the providers report it. */
  datatype Item = Item(title: string, url: string, snippet: string, source: string)

  /** One fetched page handed to the answer step. */
  datatype Page = Page(title: string, url: string, snippet: string, content: string)

  // ---------------------------------------------------------------------
  // _rank_score

  /** The characters of the token pattern `[a-zA-Z0-9]`. */
  predicate IsAlnum(c: char)
  {
    'a' <= c <= 'z' || 'A' <= c <= 'Z' || '0' <= c <= '9'
  }

  /** The length of the longest prefix of `s` made of token characters. */
  function AlnumPrefix(s: string): (n: nat)
    ensures n <= |s|
    ensures forall i :: 0 <= i < n ==> IsAlnum(s[i])
    ensures n == |s| || !IsAlnum(s[n])
    decreases |s|
  {
    if s == [] || !IsAlnum(s[0]) then 0 else 1 + AlnumPrefix(s[1..])
  }

  /** `re.findall(r"[a-zA-Z0-9]+", s)`: the maximal runs of token characters, left to right. */
  function Tokens(s: string): (r: seq<string>)
    ensures forall i :: 0 <= i < |r| ==> r[i] != []
    ensures forall i :: 0 <= i < |r| ==> forall j :: 0 <= j < |r[i]| ==> IsAlnum(r[i][j])
    decreases |s|
  {
    if s == [] then []
    else if !IsAlnum(s[0]) then Tokens(s[1..])
    else
      var n := AlnumPrefix(s);
      [s[..n]] + Tokens(s[n..])
  }

  /** Every token is a piece of the text it came from. */
  lemma {:induction false} TokensOccur(s: string)
    ensures forall i :: 0 <= i < |Tokens(s)| ==> Contains(s, Tokens(s)[i])
    decreases |s|
  {
    if s != [] {
      if !IsAlnum(s[0]) {
        TokensOccur(s[1..]);
        forall i | 0 <= i < |Tokens(s)| ensures Contains(s, Tokens(s)[i]) {
          ContainsSuffix(s, 1, Tokens(s)[i]);
        }
      } else {
        var n := AlnumPrefix(s);
        TokensOccur(s[n..]);
        forall i | 0 <= i < |Tokens(s)| ensures Contains(s, Tokens(s)[i]) {
          if i == 0 {
            assert OccursAt(s, s[..n], 0);
          } else {
            assert Tokens(s)[i] == Tokens(s[n..])[i - 1];
            ContainsSuffix(s, n, Tokens(s)[i]);
          }
        }
      }
    }
  }

  /** Where each token sits in the text: its start, from which it runs for its own length. */
  predicate Located(s: string, toks: seq<string>, pos: seq<int>)
  {
    && |pos| == |toks|
    && (forall i :: 0 <= i < |pos| ==> 0 <= pos[i] && pos[i] + |toks[i]| <= |s| && s[pos[i]..pos[i] + |toks[i]|] == toks[i])
  }

  /**
    * The tokens, at the positions `pos`, are the maximal runs of token
    * characters of `s`, from left to right: no token is preceded or followed
    * by a token character, each ends before the next begins, and every token
    * character of `s` lies in one of them.
    */
  predicate MaximalRuns(s: string, toks: seq<string>, pos: seq<int>)
    requires Located(s, toks, pos)
  {
    && (forall i :: 0 <= i < |pos| ==> pos[i] == 0 || !IsAlnum(s[pos[i] - 1]))
    && (forall i :: 0 <= i < |pos| ==> pos[i] + |toks[i]| == |s| || !IsAlnum(s[pos[i] + |toks[i]|]))
    && (forall i :: 0 < i < |pos| ==> pos[i - 1] + |toks[i - 1]| < pos[i])
    && (forall j :: 0 <= j < |s| && IsAlnum(s[j]) ==> exists i :: 0 <= i < |pos| && pos[i] <= j < pos[i] + |toks[i]|)
  }

  function Shift(pos: seq<int>, d: int): (r: seq<int>)
    ensures |r| == |pos| && forall i :: 0 <= i < |pos| ==> r[i] == pos[i] + d
  {
    seq(|pos|, i requires 0 <= i < |pos| => pos[i] + d)
  }

  /** `re.findall` finds exactly the maximal runs of token characters, in order. */
  lemma {:induction false} TokensAreMaximalRuns(s: string) returns (pos: seq<int>)
    ensures Located(s, Tokens(s), pos) && MaximalRuns(s, Tokens(s), pos)
    decreases |s|
  {
    if s == [] {
      pos := [];
    } else if !IsAlnum(s[0]) {
      var p := TokensAreMaximalRuns(s[1..]);
      pos := Shift(p, 1);
      SkipLocated(s, Tokens(s[1..]), p);
      SkipKeepsRuns(s, Tokens(s[1..]), p);
    } else {
      var n := AlnumPrefix(s);
      var rest := Tokens(s[n..]);
      var p := TokensAreMaximalRuns(s[n..]);
      pos := [0] + Shift(p, n);
      assert Tokens(s) == [s[..n]] + rest;
      forall k | 0 <= k < |rest| ensures rest[k] != [] && IsAlnum(rest[k][0]) {
      }
      RunLocated(s, n, rest, p);
      RunThenRest(s, n, rest, p);
    }
  }

  lemma SkipLocated(s: string, toks: seq<string>, p: seq<int>)
    requires s != [] && Located(s[1..], toks, p)
    ensures Located(s, toks, Shift(p, 1))
  {
    var t := s[1..];
    var pos := Shift(p, 1);
    forall i | 0 <= i < |pos| ensures s[pos[i]..pos[i] + |toks[i]|] == toks[i] {
      assert s[pos[i]..pos[i] + |toks[i]|] == t[p[i]..p[i] + |toks[i]|];
    }
  }

  /** A leading non-token character shifts the runs of the rest by one. */
  lemma SkipKeepsRuns(s: string, toks: seq<string>, p: seq<int>)
    requires s != [] && !IsAlnum(s[0])
    requires Located(s[1..], toks, p) && MaximalRuns(s[1..], toks, p)
    requires Located(s, toks, Shift(p, 1))
    ensures MaximalRuns(s, toks, Shift(p, 1))
  {
    var pos := Shift(p, 1);
    SkipBounds(s, toks, p, pos);
    SkipCovers(s, toks, p, pos);
    assert MaximalRuns(s, toks, pos);
  }

  lemma SkipBounds(s: string, toks: seq<string>, p: seq<int>, pos: seq<int>)
    requires s != [] && !IsAlnum(s[0]) && |p| == |toks| && pos == Shift(p, 1)
    requires forall i :: 0 <= i < |p| ==> 0 <= p[i] && p[i] + |toks[i]| <= |s| - 1
    requires forall i :: 0 <= i < |p| ==> p[i] == 0 || !IsAlnum(s[1..][p[i] - 1])
    requires forall i :: 0 <= i < |p| ==> p[i] + |toks[i]| == |s| - 1 || !IsAlnum(s[1..][p[i] + |toks[i]|])
    ensures forall i :: 0 <= i < |pos| ==> pos[i] == 0 || (0 < pos[i] <= |s| && !IsAlnum(s[pos[i] - 1]))
    ensures forall i :: 0 <= i < |pos| ==> pos[i] + |toks[i]| == |s| || (0 <= pos[i] + |toks[i]| < |s| && !IsAlnum(s[pos[i] + |toks[i]|]))
  {
    var t := s[1..];
    forall i | 0 <= i < |pos|
      ensures pos[i] == 0 || (0 < pos[i] <= |s| && !IsAlnum(s[pos[i] - 1]))
      ensures pos[i] + |toks[i]| == |s| || (0 <= pos[i] + |toks[i]| < |s| && !IsAlnum(s[pos[i] + |toks[i]|]))
    {
      if p[i] > 0 {
        assert s[pos[i] - 1] == t[p[i] - 1];
      }
      if pos[i] + |toks[i]| < |s| {
        assert s[pos[i] + |toks[i]|] == t[p[i] + |toks[i]|];
      }
    }
  }

  lemma SkipCovers(s: string, toks: seq<string>, p: seq<int>, pos: seq<int>)
    requires s != [] && !IsAlnum(s[0]) && |p| == |toks| && pos == Shift(p, 1)
    requires forall j :: 0 <= j < |s[1..]| && IsAlnum(s[1..][j]) ==> exists i :: 0 <= i < |p| && p[i] <= j < p[i] + |toks[i]|
    ensures forall j :: 0 <= j < |s| && IsAlnum(s[j]) ==> exists i :: 0 <= i < |pos| && pos[i] <= j < pos[i] + |toks[i]|
  {
    var t := s[1..];
    forall j | 0 <= j < |s| && IsAlnum(s[j])
      ensures exists i :: 0 <= i < |pos| && pos[i] <= j < pos[i] + |toks[i]|
    {
      assert j > 0 && t[j - 1] == s[j];
      var i :| 0 <= i < |p| && p[i] <= j - 1 < p[i] + |toks[i]|;
      assert pos[i] <= j < pos[i] + |toks[i]|;
    }
  }

  lemma RunLocated(s: string, n: nat, rest: seq<string>, p: seq<int>)
    requires 0 < n <= |s| && Located(s[n..], rest, p)
    ensures Located(s, [s[..n]] + rest, [0] + Shift(p, n))
  {
    var t := s[n..];
    var toks := [s[..n]] + rest;
    var pos := [0] + Shift(p, n);
    forall i | 0 < i < |pos| ensures s[pos[i]..pos[i] + |toks[i]|] == toks[i] {
      assert toks[i] == rest[i - 1] && pos[i] == p[i - 1] + n;
      assert s[pos[i]..pos[i] + |toks[i]|] == t[p[i - 1]..p[i - 1] + |rest[i - 1]|];
    }
  }

  /** A leading run of `n` token characters is the first token, then come the runs of the rest, shifted by `n`. */
  lemma RunThenRest(s: string, n: nat, rest: seq<string>, p: seq<int>)
    requires 0 < n <= |s| && (n == |s| || !IsAlnum(s[n]))
    requires forall k :: 0 <= k < |rest| ==> rest[k] != [] && IsAlnum(rest[k][0])
    requires Located(s[n..], rest, p) && MaximalRuns(s[n..], rest, p)
    requires Located(s, [s[..n]] + rest, [0] + Shift(p, n))
    ensures MaximalRuns(s, [s[..n]] + rest, [0] + Shift(p, n))
  {
    RunBounds(s, n, rest, p);
    RunCovers(s, n, rest, p);
    var toks := [s[..n]] + rest;
    var pos := [0] + Shift(p, n);
    RunStarts(s, n, rest, p, toks, pos);
    RunEnds(s, n, rest, p, toks, pos);
    RunOrdered(s, n, rest, p, toks, pos);
    assert MaximalRuns(s, toks, pos);
  }

  lemma RunStarts(s: string, n: nat, rest: seq<string>, p: seq<int>, toks: seq<string>, pos: seq<int>)
    requires 0 < n <= |s| && |p| == |rest| && toks == [s[..n]] + rest && pos == [0] + Shift(p, n)
    requires forall k :: 0 <= k < |p| ==> 0 < p[k] <= |s| - n && !IsAlnum(s[n + p[k] - 1])
    ensures forall i :: 0 <= i < |pos| ==> pos[i] == 0 || (0 < pos[i] <= |s| && !IsAlnum(s[pos[i] - 1]))
  {
    forall i | 0 < i < |pos| ensures 0 < pos[i] <= |s| && !IsAlnum(s[pos[i] - 1]) {
      assert pos[i] == n + p[i - 1];
    }
  }

  lemma RunEnds(s: string, n: nat, rest: seq<string>, p: seq<int>, toks: seq<string>, pos: seq<int>)
    requires 0 < n <= |s| && (n == |s| || !IsAlnum(s[n]))
    requires |p| == |rest| && toks == [s[..n]] + rest && pos == [0] + Shift(p, n)
    requires forall k :: 0 <= k < |p| ==> 0 <= p[k] && p[k] + |rest[k]| <= |s| - n
    requires forall k :: 0 <= k < |p| ==> n + p[k] + |rest[k]| == |s| || !IsAlnum(s[n + p[k] + |rest[k]|])
    ensures forall i :: 0 <= i < |pos| ==> pos[i] + |toks[i]| == |s| || (0 <= pos[i] + |toks[i]| < |s| && !IsAlnum(s[pos[i] + |toks[i]|]))
  {
    forall i | 0 <= i < |pos| ensures pos[i] + |toks[i]| == |s| || (0 <= pos[i] + |toks[i]| < |s| && !IsAlnum(s[pos[i] + |toks[i]|])) {
      if i > 0 {
        assert toks[i] == rest[i - 1] && pos[i] == n + p[i - 1];
      } else {
        assert |toks[0]| == n && pos[0] == 0;
      }
    }
  }

  lemma RunOrdered(s: string, n: nat, rest: seq<string>, p: seq<int>, toks: seq<string>, pos: seq<int>)
    requires 0 < n <= |s| && |p| == |rest| && toks == [s[..n]] + rest && pos == [0] + Shift(p, n)
    requires forall k :: 0 <= k < |p| ==> p[k] > 0
    requires forall k :: 0 < k < |p| ==> p[k - 1] + |rest[k - 1]| < p[k]
    ensures forall i :: 0 < i < |pos| ==> pos[i - 1] + |toks[i - 1]| < pos[i]
  {
    forall i | 0 < i < |pos| ensures pos[i - 1] + |toks[i - 1]| < pos[i] {
      assert toks[i] == rest[i - 1] && pos[i] == n + p[i - 1];
      if i > 1 {
        assert toks[i - 1] == rest[i - 2] && pos[i - 1] == n + p[i - 2];
      }
    }
  }

  lemma RunBounds(s: string, n: nat, rest: seq<string>, p: seq<int>)
    requires 0 < n <= |s| && (n == |s| || !IsAlnum(s[n]))
    requires forall k :: 0 <= k < |rest| ==> rest[k] != [] && IsAlnum(rest[k][0])
    requires Located(s[n..], rest, p)
    requires forall k :: 0 <= k < |p| ==> p[k] == 0 || !IsAlnum(s[n..][p[k] - 1])
    requires forall k :: 0 <= k < |p| ==> p[k] + |rest[k]| == |s[n..]| || !IsAlnum(s[n..][p[k] + |rest[k]|])
    ensures forall k :: 0 <= k < |p| ==>
      p[k] > 0 && !IsAlnum(s[n + p[k] - 1]) && (n + p[k] + |rest[k]| == |s| || !IsAlnum(s[n + p[k] + |rest[k]|]))
  {
    var t := s[n..];
    forall k | 0 <= k < |p|
      ensures p[k] > 0 && !IsAlnum(s[n + p[k] - 1])
      ensures n + p[k] + |rest[k]| == |s| || !IsAlnum(s[n + p[k] + |rest[k]|])
    {
      assert t[p[k]] == rest[k][0];
      assert p[k] > 0 by {
        if p[k] == 0 {
          assert t[0] == s[n];
        }
      }
      assert s[n + p[k] - 1] == t[p[k] - 1];
      if n + p[k] + |rest[k]| < |s| {
        assert s[n + p[k] + |rest[k]|] == t[p[k] + |rest[k]|];
      }
    }
  }

  lemma RunCovers(s: string, n: nat, rest: seq<string>, p: seq<int>)
    requires 0 < n <= |s|
    requires Located(s[n..], rest, p) && MaximalRuns(s[n..], rest, p)
    ensures var toks, pos := [s[..n]] + rest, [0] + Shift(p, n);
      forall j :: 0 <= j < |s| && IsAlnum(s[j]) ==> exists i :: 0 <= i < |pos| && pos[i] <= j < pos[i] + |toks[i]|
  {
    var t := s[n..];
    var toks := [s[..n]] + rest;
    var pos := [0] + Shift(p, n);
    forall j | 0 <= j < |s| && IsAlnum(s[j])
      ensures exists i :: 0 <= i < |pos| && pos[i] <= j < pos[i] + |toks[i]|
    {
      if j >= n {
        assert t[j - n] == s[j];
        var k :| 0 <= k < |p| && p[k] <= j - n < p[k] + |rest[k]|;
        assert pos[k + 1] <= j < pos[k + 1] + |toks[k + 1]|;
      } else {
        assert pos[0] <= j < pos[0] + |toks[0]|;
      }
    }
  }

  /** A text without token characters has no tokens. */
  lemma {:induction false} NoTokens(s: string)
    requires forall i :: 0 <= i < |s| ==> !IsAlnum(s[i])
    ensures Tokens(s) == []
    decreases |s|
  {
    if s != [] {
      NoTokens(s[1..]);
    }
  }

  /** How many of `toks` are non-empty pieces of `text`. */
  function Overlaps(toks: seq<string>, text: string): (n: nat)
    ensures n <= |toks|
    decreases |toks|
  {
    if toks == [] then 0
    else (if toks[0] != [] && Contains(text, toks[0]) then 1 else 0) + Overlaps(toks[1..], text)
  }

  /** The text an item is matched against: lower-cased title and snippet. */
  function MatchText(item: Item): (r: string)
    ensures Contains(r, Lower(item.title)) && Contains(r, Lower(item.snippet))
  {
    var t, sn := Lower(item.title), Lower(item.snippet);
    var r := t + " " + sn;
    assert OccursAt(r, t, 0);
    assert OccursAt(r, sn, |t| + 1);
    r
  }

  /** `_rank_score(item, queries)`: only the first query counts, and only its first five tokens. */
  function Score(item: Item, queries: seq<string>): (score: int)
    ensures 0 <= score <= 5
    ensures queries == [] ==> score == 0
  {
    if queries == [] then 0
    else Overlaps(SliceTo(Tokens(Lower(queries[0])), 5), MatchText(item))
  }

  /** Queries after the first do not change the score. */
  lemma FirstQueryOnly(item: Item, q: string, rest: seq<string>)
    ensures Score(item, [q] + rest) == Score(item, [q])
  {
  }

  /** Tokens that all occur in the text each score one point. */
  lemma {:induction false} FullOverlap(toks: seq<string>, text: string)
    requires forall i :: 0 <= i < |toks| ==> toks[i] != [] && Contains(text, toks[i])
    ensures Overlaps(toks, text) == |toks|
    decreases |toks|
  {
    if toks != [] {
      FullOverlap(toks[1..], text);
    }
  }

  /** Tokens none of which occur in the text score nothing. */
  lemma {:induction false} NoOverlap(toks: seq<string>, text: string)
    requires forall i :: 0 <= i < |toks| ==> !Contains(text, toks[i])
    ensures Overlaps(toks, text) == 0
    decreases |toks|
  {
    if toks != [] {
      NoOverlap(toks[1..], text);
    }
  }

  /** `_rank_score` as written: a loop over the queries that stops after the first one. */
  method RankScore(item: Item, queries: seq<string>) returns (score: int)
    ensures score == Score(item, queries)
  {
    var text := MatchText(item);
    score := 0;
    for i := 0 to |queries|
      invariant i == 0 && score == 0
    {
      var qtoks := Tokens(Lower(queries[i]));
      score := score + Overlaps(SliceTo(qtoks, 5), text);
      break;
    }
  }

  // ---------------------------------------------------------------------
  // De-duplication

  function Urls(s: seq<Item>): set<string>
  {
    set i | 0 <= i < |s| :: s[i].url
  }

  lemma UrlsAppend(s: seq<Item>, x: Item)
    ensures Urls(s + [x]) == Urls(s) + {x.url}
  {
    assert (s + [x])[|s|] == x;
    forall u | u in Urls(s) ensures u in Urls(s + [x]) {
      var i :| 0 <= i < |s| && s[i].url == u;
      assert (s + [x])[i] == s[i];
    }
  }

  /**
    * The aggregation loop over a stream of hits: an item is kept when its
    * URL is non-empty and not seen before.
    */
  function Dedup(s: seq<Item>): (r: seq<Item>)
    ensures forall i :: 0 <= i < |r| ==> r[i].url != ""
    ensures forall i, j :: 0 <= i < j < |r| ==> r[i].url != r[j].url
    decreases |s|
  {
    if s == [] then []
    else
      var d := Dedup(s[..|s| - 1]);
      var x := s[|s| - 1];
      if x.url == "" || x.url in Urls(d) then d
      else
        assert forall i :: 0 <= i < |d| ==> d[i].url in Urls(d);
        d + [x]
  }

  /** Every non-empty URL of the stream is represented. */
  lemma {:induction false} DedupCovers(s: seq<Item>)
    ensures forall j :: 0 <= j < |s| && s[j].url != "" ==> s[j].url in Urls(Dedup(s))
    decreases |s|
  {
    if s != [] {
      var p := s[..|s| - 1];
      DedupCovers(p);
      var d := Dedup(p);
      forall j | 0 <= j < |s| && s[j].url != "" ensures s[j].url in Urls(Dedup(s)) {
        if j < |s| - 1 {
          assert s[j] == p[j];
          var k :| 0 <= k < |d| && d[k].url == s[j].url;
          assert Dedup(s)[k] == d[k];
        } else {
          if s[j].url !in Urls(d) {
            assert Dedup(s)[|d|] == s[j];
          }
        }
      }
    }
  }

  /** `x` is in `s`, and no item of `s` before it has its URL. */
  ghost predicate FirstOfUrl(s: seq<Item>, x: Item)
  {
    exists j :: 0 <= j < |s| && s[j] == x && NoUrlBefore(s, j, x.url)
  }

  predicate NoUrlBefore(s: seq<Item>, j: nat, url: string)
    requires j <= |s|
  {
    forall j' :: 0 <= j' < j ==> s[j'].url != url
  }

  /** The kept item for a URL is the first item of the stream with that URL. */
  lemma {:induction false} DedupFirst(s: seq<Item>)
    ensures forall i :: 0 <= i < |Dedup(s)| ==> FirstOfUrl(s, Dedup(s)[i])
    decreases |s|
  {
    if s != [] {
      var p := s[..|s| - 1];
      DedupFirst(p);
      DedupCovers(p);
      var d := Dedup(p);
      var r := Dedup(s);
      forall i | 0 <= i < |r| ensures FirstOfUrl(s, r[i]) {
        if i < |d| {
          assert FirstOfUrl(p, d[i]);
          var j :| 0 <= j < |p| && p[j] == d[i] && NoUrlBefore(p, j, d[i].url);
          assert s[j] == r[i];
          assert forall j' :: 0 <= j' < j ==> s[j'] == p[j'];
          assert NoUrlBefore(s, j, r[i].url);
        } else {
          var j := |s| - 1;
          assert r[i] == s[j];
          forall j' | 0 <= j' < j ensures s[j'].url != r[i].url {
            assert s[j'] == p[j'];
          }
          assert NoUrlBefore(s, j, r[i].url);
        }
      }
    }
  }

  /** `idx` places the items of `a` at increasing positions of `b`. */
  predicate Embeds(a: seq<Item>, b: seq<Item>, idx: seq<nat>)
  {
    && |idx| == |a|
    && (forall k :: 0 <= k < |idx| ==> idx[k] < |b| && b[idx[k]] == a[k])
    && (forall k, l :: 0 <= k < l < |idx| ==> idx[k] < idx[l])
  }

  /** The kept items are in stream order. */
  lemma {:induction false} DedupOrder(s: seq<Item>) returns (idx: seq<nat>)
    ensures Embeds(Dedup(s), s, idx)
    decreases |s|
  {
    if s == [] {
      idx := [];
    } else {
      var p := s[..|s| - 1];
      var inner := DedupOrder(p);
      var x := s[|s| - 1];
      if x.url == "" || x.url in Urls(Dedup(p)) {
        idx := inner;
      } else {
        idx := inner + [|s| - 1];
      }
    }
  }

  // ---------------------------------------------------------------------
  // The stream of hits

  /**
    * What the providers return for a query: Google's hits, used alone when
    * Google is configured, or DuckDuckGo's news hits followed by its text
    * hits (each already `[]` where the call failed).
    */
  datatype Providers = Providers(
    googleMode: bool,
    google: string -> seq<Item>,
    news: string -> seq<Item>,
    text: string -> seq<Item>)

  function Batch(p: Providers, q: string): seq<Item>
  {
    if p.googleMode then p.google(q) else p.news(q) + p.text(q)
  }

  /** The hits of all the queries, query by query. */
  function Stream(p: Providers, queries: seq<string>): seq<Item>
    decreases |queries|
  {
    if queries == [] then []
    else Stream(p, queries[..|queries| - 1]) + Batch(p, queries[|queries| - 1])
  }

  lemma StreamStep(p: Providers, queries: seq<string>, qi: nat)
    requires qi < |queries|
    ensures Stream(p, queries[..qi + 1]) == Stream(p, queries[..qi]) + Batch(p, queries[qi])
  {
    assert queries[..qi + 1][..qi] == queries[..qi];
  }

  lemma ConcatAssoc<T>(a: seq<T>, b: seq<T>, c: seq<T>)
    ensures a + b + c == a + (b + c)
  {
  }

  // ---------------------------------------------------------------------
  // Ranking

  /** Insert `x`, which came before every item of `r`, ahead of the items that score no higher. */
  function InsertDesc(x: Item, r: seq<Item>, key: Item -> int): (out: seq<Item>)
    ensures multiset(out) == multiset(r) + multiset{x}
    decreases |r|
  {
    if r == [] || key(r[0]) <= key(x) then [x] + r
    else
      assert r == [r[0]] + r[1..];
      [r[0]] + InsertDesc(x, r[1..], key)
  }

  /** `sorted(s, key=key, reverse=True)`. */
  function SortDesc(s: seq<Item>, key: Item -> int): (r: seq<Item>)
    ensures multiset(r) == multiset(s)
    decreases |s|
  {
    if s == [] then []
    else
      assert s == [s[0]] + s[1..];
      InsertDesc(s[0], SortDesc(s[1..], key), key)
  }

  predicate SortedDesc(r: seq<Item>, key: Item -> int)
  {
    forall i, j :: 0 <= i < j < |r| ==> key(r[i]) >= key(r[j])
  }

  /** The items of `s` whose key is `v`, in order. */
  function WithKey(s: seq<Item>, key: Item -> int, v: int): seq<Item>
    decreases |s|
  {
    if s == [] then []
    else (if key(s[0]) == v then [s[0]] else []) + WithKey(s[1..], key, v)
  }

  lemma {:induction false} InsertSorted(x: Item, r: seq<Item>, key: Item -> int)
    requires SortedDesc(r, key)
    ensures SortedDesc(InsertDesc(x, r, key), key)
    ensures InsertDesc(x, r, key) != [] && (InsertDesc(x, r, key)[0] == x || (r != [] && InsertDesc(x, r, key)[0] == r[0]))
    decreases |r|
  {
    if r != [] && key(r[0]) > key(x) {
      InsertSorted(x, r[1..], key);
    }
  }

  lemma {:induction false} InsertWithKey(x: Item, r: seq<Item>, key: Item -> int, v: int)
    ensures WithKey(InsertDesc(x, r, key), key, v) == (if key(x) == v then [x] else []) + WithKey(r, key, v)
    decreases |r|
  {
    if r == [] || key(r[0]) <= key(x) {
      assert ([x] + r)[1..] == r;
    } else {
      var rest := InsertDesc(x, r[1..], key);
      assert ([r[0]] + rest)[1..] == rest;
      InsertWithKey(x, r[1..], key, v);
    }
  }

  /** The ranking is descending by score. */
  lemma {:induction false} SortDescSorted(s: seq<Item>, key: Item -> int)
    ensures SortedDesc(SortDesc(s, key), key)
    decreases |s|
  {
    if s != [] {
      SortDescSorted(s[1..], key);
      InsertSorted(s[0], SortDesc(s[1..], key), key);
    }
  }

  /** The ranking is stable: items of equal score keep their order of discovery. */
  lemma {:induction false} SortDescStable(s: seq<Item>, key: Item -> int, v: int)
    ensures WithKey(SortDesc(s, key), key, v) == WithKey(s, key, v)
    decreases |s|
  {
    if s != [] {
      SortDescStable(s[1..], key, v);
      InsertWithKey(s[0], SortDesc(s[1..], key), key, v);
    }
  }

  // ---------------------------------------------------------------------
  // Fetching

  /**
    * What a request for a URL gives: a parsed page, a request that failed
    * (caught inside `fetch_url`), or an exception from the HTML parser,
    * which runs outside that `try` and propagates.
    */
  datatype FetchOutcome = Fetched(title: string, text: string) | FetchFailed(error: string) | ParseRaised(error: string)

  /** `fetch_url`: the page's title and text, an empty title and an error marker, or the parser's exception. */
  function FetchUrl(o: FetchOutcome): (r: Result<(string, string)>)
    ensures r.Err? <==> o.ParseRaised?
    ensures o.ParseRaised? ==> r.error == o.error
    ensures o.FetchFailed? ==> r.value.0 == "" && r.value.1 != [] && StartsWith(r.value.1, "<fetch_error: ")
    ensures o.Fetched? ==> r.value == (o.title, o.text)
  {
    match o
    case Fetched(t, x) => Ok((t, x))
    case FetchFailed(e) => Ok(("", "<fetch_error: " + e + ">"))
    case ParseRaised(e) => Err(e)
  }

  /** The page built from a ranked item and its fetched title and text. */
  function PageOf(item: Item, title: string, text: string, maxDocChars: int): (r: Page)
    ensures r.url == item.url && r.snippet == item.snippet
    ensures r.title == (if title != "" then title else item.title)
    ensures |r.content| <= |text| && r.content == text[..|r.content|]
    ensures maxDocChars >= 0 ==> |r.content| == Min(maxDocChars, |text|)
  {
    Page(if title != "" then title else item.title, item.url, item.snippet, SliceTo(text, maxDocChars))
  }

  /** Some item's fetch raises. */
  predicate SomeRaises(items: seq<Item>, fetch: string -> FetchOutcome)
  {
    exists i :: 0 <= i < |items| && fetch(items[i].url).ParseRaised?
  }

  /**
    * The fetch loop's result over `items`: items whose text comes back empty
    * are skipped, and an exception from a fetch ends the loop.
    */
  function Pages(items: seq<Item>, fetch: string -> FetchOutcome, maxDocChars: int): (r: Result<seq<Page>>)
    ensures r.Err? <==> SomeRaises(items, fetch)
    ensures r.Ok? ==> |r.value| <= |items|
    ensures r.Ok? && maxDocChars >= 0 ==> forall i :: 0 <= i < |r.value| ==> |r.value[i].content| <= maxDocChars
    ensures r.Ok? ==> forall i :: 0 <= i < |r.value| ==> r.value[i].url in Urls(items)
    decreases |items|
  {
    if items == [] then Ok([])
    else
      var init, item := items[..|items| - 1], items[|items| - 1];
      InitRaises(items, fetch);
      assert Urls(init) <= Urls(items) by {
        forall j | 0 <= j < |init| ensures init[j].url in Urls(items) {
          assert init[j] == items[j];
        }
      }
      match Pages(init, fetch, maxDocChars)
      case Err(e) => Err(e)
      case Ok(prev) =>
        match FetchUrl(fetch(item.url))
        case Err(e) => Err(e)
        case Ok(fetched) =>
          if fetched.1 == "" then Ok(prev)
          else
            assert item.url in Urls(items);
            Ok(prev + [PageOf(item, fetched.0, fetched.1, maxDocChars)])
  }

  /** A fetch of `items` raises exactly when one of all but the last raises or the last one does. */
  lemma InitRaises(items: seq<Item>, fetch: string -> FetchOutcome)
    requires items != []
    ensures SomeRaises(items, fetch)
      <==> SomeRaises(items[..|items| - 1], fetch) || fetch(items[|items| - 1].url).ParseRaised?
  {
    var init := items[..|items| - 1];
    if SomeRaises(items, fetch) && !fetch(items[|items| - 1].url).ParseRaised? {
      var i :| 0 <= i < |items| && fetch(items[i].url).ParseRaised?;
      assert init[i] == items[i];
    }
    if SomeRaises(init, fetch) {
      var i :| 0 <= i < |init| && fetch(init[i].url).ParseRaised?;
      assert init[i] == items[i];
    }
  }

  /**
    * One more ranked item: after the earlier items, its exception ends the
    * loop; otherwise it adds its page at the end when its fetched text is
    * non-empty, and nothing when it is empty.
    */
  lemma PagesAppendOne(items: seq<Item>, it: Item, fetch: string -> FetchOutcome, maxDocChars: int)
    ensures Pages(items, fetch, maxDocChars).Err? ==> Pages(items + [it], fetch, maxDocChars) == Pages(items, fetch, maxDocChars)
    ensures Pages(items, fetch, maxDocChars).Ok? && fetch(it.url).ParseRaised? ==>
      Pages(items + [it], fetch, maxDocChars) == Err(fetch(it.url).error)
    ensures var prev, fetched := Pages(items, fetch, maxDocChars), FetchUrl(fetch(it.url));
      prev.Ok? && fetched.Ok? ==>
        Pages(items + [it], fetch, maxDocChars)
          == if fetched.value.1 == "" then prev
             else Ok(prev.value + [PageOf(it, fetched.value.0, fetched.value.1, maxDocChars)])
  {
    assert (items + [it])[..|items + [it]| - 1] == items;
  }

  /**
    * The pages of a concatenation: the first part's exception, else the
    * second part's, else the pages of each part in order.
    */
  lemma {:induction false} PagesConcat(a: seq<Item>, b: seq<Item>, fetch: string -> FetchOutcome, maxDocChars: int)
    ensures Pages(a, fetch, maxDocChars).Err? ==> Pages(a + b, fetch, maxDocChars) == Pages(a, fetch, maxDocChars)
    ensures Pages(a, fetch, maxDocChars).Ok? && Pages(b, fetch, maxDocChars).Err? ==>
      Pages(a + b, fetch, maxDocChars) == Pages(b, fetch, maxDocChars)
    ensures Pages(a, fetch, maxDocChars).Ok? && Pages(b, fetch, maxDocChars).Ok? ==>
      Pages(a + b, fetch, maxDocChars) == Ok(Pages(a, fetch, maxDocChars).value + Pages(b, fetch, maxDocChars).value)
    decreases |b|
  {
    if b == [] {
      assert a + b == a;
      assert Pages(b, fetch, maxDocChars) == Ok([]);
      if Pages(a, fetch, maxDocChars).Ok? {
        assert Pages(a, fetch, maxDocChars).value + [] == Pages(a, fetch, maxDocChars).value;
      }
    } else {
      var init, last := b[..|b| - 1], b[|b| - 1];
      calc {
        a + b;
        { assert b == init + [last]; }
        a + (init + [last]);
        (a + init) + [last];
      }
      PagesConcat(a, init, fetch, maxDocChars);
      PagesAppendOne(a + init, last, fetch, maxDocChars);
      PagesAppendOne(init, last, fetch, maxDocChars);
      var pa, pi := Pages(a, fetch, maxDocChars), Pages(init, fetch, maxDocChars);
      var fetched := FetchUrl(fetch(last.url));
      if pa.Ok? && pi.Ok? && fetched.Ok? && fetched.value.1 != "" {
        var pg := PageOf(last, fetched.value.0, fetched.value.1, maxDocChars);
        ConcatAssoc(pa.value, pi.value, [pg]);
      }
    }
  }

  /** The first fetch that raises ends the loop with its exception, whatever comes after it. */
  lemma FirstRaiseWins(items: seq<Item>, k: nat, fetch: string -> FetchOutcome, maxDocChars: int)
    requires k < |items| && fetch(items[k].url).ParseRaised?
    requires forall j :: 0 <= j < k ==> !fetch(items[j].url).ParseRaised?
    ensures Pages(items, fetch, maxDocChars) == Err(fetch(items[k].url).error)
  {
    var before, at, after := items[..k], [items[k]], items[k + 1..];
    assert items == before + (at + after);
    assert !SomeRaises(before, fetch);
    assert at == [] + [items[k]];
    PagesAppendOne([], items[k], fetch, maxDocChars);
    PagesConcat(at, after, fetch, maxDocChars);
    PagesConcat(before, at + after, fetch, maxDocChars);
  }

  /** A failed request still becomes a page, holding the error marker. */
  lemma FailedFetchIsPage(items: seq<Item>, fetch: string -> FetchOutcome, maxDocChars: int)
    requires items != [] && fetch(items[|items| - 1].url).FetchFailed?
    requires Pages(items[..|items| - 1], fetch, maxDocChars).Ok?
    ensures Pages(items, fetch, maxDocChars) ==
      Ok(Pages(items[..|items| - 1], fetch, maxDocChars).value
        + [PageOf(items[|items| - 1], "", FetchUrl(fetch(items[|items| - 1].url)).value.1, maxDocChars)])
  {
  }

  /** When every page is fetched with empty text there are no pages. */
  lemma {:induction false} AllEmptyNoPages(items: seq<Item>, fetch: string -> FetchOutcome, maxDocChars: int)
    requires forall i :: 0 <= i < |items| ==> fetch(items[i].url).Fetched? && fetch(items[i].url).text == ""
    ensures Pages(items, fetch, maxDocChars) == Ok([])
    decreases |items|
  {
    if items != [] {
      var init := items[..|items| - 1];
      forall i | 0 <= i < |init|
        ensures fetch(init[i].url).Fetched? && fetch(init[i].url).text == ""
      {
        assert init[i] == items[i];
      }
      AllEmptyNoPages(init, fetch, maxDocChars);
    }
  }

  /** At most `fetchMaxPages` pages come out, all from the top of the ranking. */
  lemma PageCap(ranked: seq<Item>, fetchMaxPages: int, fetch: string -> FetchOutcome, maxDocChars: int)
    requires fetchMaxPages >= 0
    ensures var r := Pages(SliceTo(ranked, fetchMaxPages), fetch, maxDocChars);
      r.Ok? ==> |r.value| <= fetchMaxPages
  {
  }

  // ---------------------------------------------------------------------
  // search_and_fetch

  /** Add the new hits of `items` to `aggregated`, keeping `seen` the set of its URLs. */
  method Admit(aggregated: seq<Item>, seen: set<string>, ghost base: seq<Item>, items: seq<Item>)
    returns (agg': seq<Item>, seen': set<string>)
    requires aggregated == Dedup(base) && seen == Urls(aggregated)
    ensures agg' == Dedup(base + items) && seen' == Urls(agg')
  {
    agg', seen' := aggregated, seen;
    assert base + items[..0] == base;
    for k := 0 to |items|
      invariant agg' == Dedup(base + items[..k]) && seen' == Urls(agg')
    {
      DedupStep(base, items, k);
      var url := items[k].url;
      if url == "" || url in seen' {
        continue;
      }
      UrlsAppend(agg', items[k]);
      seen' := seen' + {url};
      agg' := agg' + [items[k]];
    }
    assert items[..|items|] == items;
  }

  /** One more hit: kept when its URL is non-empty and new. */
  lemma DedupStep(base: seq<Item>, items: seq<Item>, k: nat)
    requires k < |items|
    ensures var d := Dedup(base + items[..k]);
      Dedup(base + items[..k + 1])
        == if items[k].url == "" || items[k].url in Urls(d) then d else d + [items[k]]
  {
    var s := base + items[..k + 1];
    assert s[..|s| - 1] == base + items[..k];
    assert s[|s| - 1] == items[k];
  }

  /** The aggregation loop over the queries: the de-duplicated stream of hits. */
  method Aggregate(queries: seq<string>, p: Providers) returns (results: seq<Item>)
    ensures results == Dedup(Stream(p, queries))
  {
    var seen: set<string> := {};
    results := [];
    for qi := 0 to |queries|
      invariant results == Dedup(Stream(p, queries[..qi])) && seen == Urls(results)
    {
      var q := queries[qi];
      ghost var before := Stream(p, queries[..qi]);
      StreamStep(p, queries, qi);
      if p.googleMode {
        results, seen := Admit(results, seen, before, p.google(q));
      } else {
        results, seen := Admit(results, seen, before, p.news(q));
        results, seen := Admit(results, seen, before + p.news(q), p.text(q));
        ConcatAssoc(before, p.news(q), p.text(q));
      }
    }
    assert queries[..|queries|] == queries;
  }

  /** The fetch loop over the top of the ranking; an exception from a fetch propagates out of it. */
  method FetchPages(top: seq<Item>, fetch: string -> FetchOutcome, maxDocChars: int) returns (r: Result<seq<Page>>)
    ensures r == Pages(top, fetch, maxDocChars)
  {
    var pages := [];
    for k := 0 to |top|
      invariant Pages(top[..k], fetch, maxDocChars) == Ok(pages)
    {
      var item := top[k];
      assert top[..k + 1] == top[..k] + [item];
      PagesAppendOne(top[..k], item, fetch, maxDocChars);
      var fetched := FetchUrl(fetch(item.url));
      if fetched.Err? {
        assert top == top[..k + 1] + top[k + 1..];
        PagesConcat(top[..k + 1], top[k + 1..], fetch, maxDocChars);
        return Err(fetched.error);
      }
      if fetched.value.1 == "" {
        continue;
      }
      pages := pages + [PageOf(item, fetched.value.0, fetched.value.1, maxDocChars)];
    }
    assert top[..|top|] == top;
    r := Ok(pages);
  }

  /** The ranking `search_and_fetch` fetches from. */
  function Ranked(results: seq<Item>, queries: seq<string>): (r: seq<Item>)
    ensures multiset(r) == multiset(results)
    ensures forall i, j :: 0 <= i < j < |r| ==> Score(r[i], queries) >= Score(r[j], queries)
    ensures forall v :: WithKey(r, ScoreOf(queries), v) == WithKey(results, ScoreOf(queries), v)
  {
    var key := ScoreOf(queries);
    SortDescSorted(results, key);
    forall v ensures WithKey(SortDesc(results, key), key, v) == WithKey(results, key, v) {
      SortDescStable(results, key, v);
    }
    SortDesc(results, key)
  }

  /** The URLs of the first items of the ranking are URLs of the aggregated items. */
  lemma RankedPrefixUrls(results: seq<Item>, queries: seq<string>, n: int)
    ensures Urls(SliceTo(Ranked(results, queries), n)) <= Urls(results)
  {
    var r := Ranked(results, queries);
    var top := SliceTo(r, n);
    forall u | u in Urls(top) ensures u in Urls(results) {
      var i :| 0 <= i < |top| && top[i].url == u;
      assert top[i] == r[i];
      assert r[i] in multiset(r);
      assert r[i] in multiset(results);
      var j :| 0 <= j < |results| && results[j] == r[i];
    }
  }

  /** The ranking key: an item's score against the queries. */
  function ScoreOf(queries: seq<string>): Item -> int
  {
    it => Score(it, queries)
  }

  /** `search_and_fetch(queries, ..., fetch_max_pages)`: the pooled hits and the fetched pages. */
  method SearchAndFetch(queries: seq<string>, p: Providers, fetchMaxPages: int, maxDocChars: int,
                        fetch: string -> FetchOutcome)
    returns (results: seq<Item>, pages: Result<seq<Page>>)
    ensures results == Dedup(Stream(p, queries))
    ensures pages == Pages(SliceTo(Ranked(results, queries), fetchMaxPages), fetch, maxDocChars)
  {
    results := Aggregate(queries, p);
    var ranked := SortDesc(results, it => Score(it, queries));
    pages := FetchPages(SliceTo(ranked, fetchMaxPages), fetch, maxDocChars);
  }
}
