/**
  * The question-answering agent of `agent.py`: how a question is routed (a
  * recap of the conversation, an answer from the pages already fetched, a
  * direct answer, or a web search), how the planner's JSON is coerced into
  * a plan, and how the final answer gets its list of sources. The model,
  * the search providers and the page fetcher are inputs.
  */
module Chat {
  import opened Wrappers
  import opened Text
  import opened Json
  import opened Memory
  import Search

  // ---------------------------------------------------------------------
  // Language of the question

  /** The letters `_has_cyrillic` looks for: 'а'..'я' and 'А'..'Я'. */
  predicate IsCyrillicLetter(c: char)
  {
    'а' <= c <= 'я' || 'А' <= c <= 'Я'
  }

  /** `_has_cyrillic(text)`. */
  function HasCyrillic(s: string): (r: bool)
    ensures r <==> exists i :: 0 <= i < |s| && IsCyrillicLetter(s[i])
    decreases |s|
  {
    if s == [] then false
    else
      assert forall i :: 0 < i < |s| ==> s[i] == s[1..][i - 1];
      IsCyrillicLetter(s[0]) || HasCyrillic(s[1..])
  }

  /** 'ё' and 'Ё' lie outside both ranges: inserting them never makes a text Cyrillic. */
  lemma {:induction false} YoIsNotCyrillic(s: string, t: string, c: char)
    requires c == 'ё' || c == 'Ё'
    ensures HasCyrillic(s + [c] + t) == HasCyrillic(s + t)
  {
    var u := s + [c] + t;
    var v := s + t;
    if HasCyrillic(u) {
      var i :| 0 <= i < |u| && IsCyrillicLetter(u[i]);
      assert i != |s|;
      if i < |s| { assert v[i] == u[i]; } else { assert v[i - 1] == u[i]; }
    }
    if HasCyrillic(v) {
      var i :| 0 <= i < |v| && IsCyrillicLetter(v[i]);
      if i < |s| { assert u[i] == v[i]; } else { assert u[i + 1] == v[i]; }
    }
  }

  const CyrillicLabel: string := "Источники"
  const LatinLabel: string := "Sources"

  /** `_sources_label_for(text)`: `None` counts as the empty text. */
  function SourcesLabelFor(text: Option<string>): (r: string)
    ensures r == CyrillicLabel <==> HasCyrillic(OrEmpty(text))
    ensures r == CyrillicLabel || r == LatinLabel
  {
    if HasCyrillic(OrEmpty(text)) then CyrillicLabel else LatinLabel
  }

  // ---------------------------------------------------------------------
  // ChatAgent.plan: coercing the planner's reply

  /** The dict `plan` returns. */
  datatype QueryPlan = QueryPlan(needSearch: bool, queries: seq<string>, answer: Json, reason: Json, steps: seq<string>)

  /** The TypeError message of iterating over `v`. */
  function NotIterable(v: Json): string
  {
    "'" + TypeName(v) + "' object is not iterable"
  }

  /**
    * `x = plan.get(k) or []`, a bare string wrapped into a list, then the
    * items a comprehension over `x` visits (a dict yields its keys).
    */
  function ListOf(v: Json): (r: Result<seq<Json>>)
    ensures !Truthy(v) ==> r == Ok([])
    ensures v.JStr? && v.s != [] ==> r == Ok([v])
    ensures v.JArr? ==> r == Ok(v.items)
    ensures r.Err? <==> Truthy(v) && !(v.JStr? || v.JArr? || v.JObj?)
    ensures r.Err? ==> r.error == NotIterable(v)
  {
    var x := Or(v, JArr([]));
    if x.JStr? then Ok([x])
    else match Iterate(x)
      case Some(items) => Ok(items)
      case None => Err(NotIterable(x))
  }

  /** A query the comprehension keeps: a string with non-blank content. */
  predicate IsText(v: Json)
  {
    v.JStr? && NonBlank(v.s)
  }

  /** Python's truthiness of `s.strip()`: some character is not whitespace (`Text.StripEnds`). */
  predicate NonBlank(s: string)
  {
    exists i :: 0 <= i < |s| && !IsSpace(s[i])
  }

  /** `[q.strip() for q in queries if isinstance(q, str) and q.strip()]`. */
  function KeepQueries(items: seq<Json>): (r: seq<string>)
    ensures |r| <= |items|
    decreases |items|
  {
    if items == [] then []
    else if IsText(items[0]) then [Strip(items[0].s)] + KeepQueries(items[1..])
    else KeepQueries(items[1..])
  }

  /** Every kept query is non-empty and already stripped. */
  lemma {:induction false} KeptQueriesClean(items: seq<Json>)
    ensures forall i :: 0 <= i < |KeepQueries(items)| ==>
      KeepQueries(items)[i] != [] && Strip(KeepQueries(items)[i]) == KeepQueries(items)[i]
    decreases |items|
  {
    if items != [] {
      KeptQueriesClean(items[1..]);
      var t := KeepQueries(items[1..]);
      if IsText(items[0]) {
        StripIdempotent(items[0].s);
        StripEnds(items[0].s);
        assert KeepQueries(items) == [Strip(items[0].s)] + t;
      } else {
        assert KeepQueries(items) == t;
      }
    }
  }

  /** `[s for s in steps if isinstance(s, str) and s.strip()]`: kept unstripped. */
  function KeepSteps(items: seq<Json>): (r: seq<string>)
    ensures |r| <= |items|
    decreases |items|
  {
    if items == [] then []
    else if IsText(items[0]) then [items[0].s] + KeepSteps(items[1..])
    else KeepSteps(items[1..])
  }

  /** Every kept step has non-blank content. */
  lemma {:induction false} KeptStepsNonBlank(items: seq<Json>)
    ensures forall i :: 0 <= i < |KeepSteps(items)| ==> NonBlank(KeepSteps(items)[i])
    decreases |items|
  {
    if items != [] {
      KeptStepsNonBlank(items[1..]);
      var t := KeepSteps(items[1..]);
      if IsText(items[0]) {
        assert KeepSteps(items) == [items[0].s] + t;
      } else {
        assert KeepSteps(items) == t;
      }
    }
  }

  /** Filtering distributes over concatenation, so it keeps the order of the list. */
  lemma {:induction false} KeepQueriesAppend(a: seq<Json>, b: seq<Json>)
    ensures KeepQueries(a + b) == KeepQueries(a) + KeepQueries(b)
    decreases |a|
  {
    if a != [] {
      assert (a + b)[0] == a[0];
      assert (a + b)[1..] == a[1..] + b;
      KeepQueriesAppend(a[1..], b);
      var head := if IsText(a[0]) then [Strip(a[0].s)] else [];
      assert KeepQueries(a + b) == head + KeepQueries(a[1..] + b);
      assert KeepQueries(a) == head + KeepQueries(a[1..]);
    } else {
      assert a + b == b;
    }
  }

  /** A list of Python strings as JSON values. */
  function Strs(xs: seq<string>): (r: seq<Json>)
    ensures |r| == |xs| && forall i :: 0 <= i < |xs| ==> r[i] == JStr(xs[i])
  {
    seq(|xs|, i requires 0 <= i < |xs| => JStr(xs[i]))
  }

  /** A list of clean queries passes through unchanged. */
  lemma {:induction false} KeepCleanQueries(qs: seq<string>)
    requires forall i :: 0 <= i < |qs| ==> qs[i] != [] && Strip(qs[i]) == qs[i]
    ensures KeepQueries(Strs(qs)) == qs
    decreases |qs|
  {
    if qs != [] {
      assert Strs(qs)[1..] == Strs(qs[1..]);
      KeepCleanQueries(qs[1..]);
      assert IsText(Strs(qs)[0]) by { StripEnds(qs[0]); }
    }
  }

  /** A list of non-blank steps passes through unchanged. */
  lemma {:induction false} KeepCleanSteps(ss: seq<string>)
    requires forall i :: 0 <= i < |ss| ==> NonBlank(ss[i])
    ensures KeepSteps(Strs(ss)) == ss
    decreases |ss|
  {
    if ss != [] {
      assert Strs(ss)[1..] == Strs(ss[1..]);
      KeepCleanSteps(ss[1..]);
    }
  }

  /** What every plan satisfies: at most three clean queries and three non-blank steps. */
  predicate WellFormed(p: QueryPlan)
  {
    && |p.queries| <= 3
    && (forall i :: 0 <= i < |p.queries| ==> p.queries[i] != [] && Strip(p.queries[i]) == p.queries[i])
    && |p.steps| <= 3
    && (forall i :: 0 <= i < |p.steps| ==> NonBlank(p.steps[i]))
    && (Truthy(p.answer) || p.answer == JStr(""))
    && (Truthy(p.reason) || p.reason == JStr(""))
  }

  /**
    * The sanitising part of `plan`, from the value `chat_json` returned: a
    * reply that is not a dict makes `plan.get` raise, and so does a truthy
    * `queries` or `steps` that cannot be iterated.
    */
  function SanitizePlan(reply: Json): (r: Result<QueryPlan>)
    ensures r.Err? <==> (
      || !reply.JObj?
      || ListOf(Get(reply.fields, "queries", JNull)).Err?
      || ListOf(Get(reply.fields, "steps", JNull)).Err?)
    ensures r.Ok? ==> r.value.needSearch == Truthy(Get(reply.fields, "need_search", JBool(false)))
  {
    if !reply.JObj? then Err(NoAttribute(reply, "get"))
    else
      var f := reply.fields;
      match ListOf(Get(f, "queries", JNull))
      case Err(e) => Err(e)
      case Ok(qs) =>
        match ListOf(Get(f, "steps", JNull))
        case Err(e) => Err(e)
        case Ok(ss) => Ok(Assemble(f, qs, ss))
  }

  /** The returned dict, from the reply's fields and the listed queries and steps. */
  function Assemble(f: Fields, qs: seq<Json>, ss: seq<Json>): QueryPlan
  {
    QueryPlan(
      Truthy(Get(f, "need_search", JBool(false))),
      SliceTo(KeepQueries(qs), 3),
      Or(Get(f, "answer", JNull), JStr("")),
      Or(Get(f, "reason", JNull), JStr("")),
      SliceTo(KeepSteps(ss), 3))
  }

  /** Every plan is well formed. */
  lemma SanitizedWellFormed(reply: Json)
    requires SanitizePlan(reply).Ok?
    ensures WellFormed(SanitizePlan(reply).value)
  {
    var f := reply.fields;
    var qs := ListOf(Get(f, "queries", JNull)).value;
    KeptQueriesClean(qs);
    KeptStepsNonBlank(ListOf(Get(f, "steps", JNull)).value);
  }

  /** Queries are filtered before they are cut to three: blanks ahead of good queries cost nothing. */
  lemma FilterBeforeTruncate(reply: Json, junk: seq<Json>, good: seq<Json>)
    requires reply.JObj? && Get(reply.fields, "queries", JNull) == JArr(junk + good)
    requires forall i :: 0 <= i < |junk| ==> !IsText(junk[i])
    requires ListOf(Get(reply.fields, "steps", JNull)).Ok?
    ensures SanitizePlan(reply).Ok? && SanitizePlan(reply).value.queries == SliceTo(KeepQueries(good), 3)
  {
    KeepQueriesAppend(junk, good);
    NoText(junk);
  }

  lemma {:induction false} NoText(items: seq<Json>)
    requires forall i :: 0 <= i < |items| ==> !IsText(items[i])
    ensures KeepQueries(items) == []
    decreases |items|
  {
    if items != [] {
      NoText(items[1..]);
    }
  }

  /** The dict `plan` returns, as a JSON value. */
  function PlanJson(p: QueryPlan): Json
  {
    JObj([
      ("need_search", JBool(p.needSearch)),
      ("queries", JArr(Strs(p.queries))),
      ("answer", p.answer),
      ("reason", p.reason),
      ("steps", JArr(Strs(p.steps)))])
  }

  /** A sanitised plan is a fixed point: sanitising it again gives it back. */
  lemma PlanFixedPoint(p: QueryPlan)
    requires WellFormed(p)
    ensures SanitizePlan(PlanJson(p)) == Ok(p)
  {
    var qs := Strs(p.queries);
    var ss := Strs(p.steps);
    PlanFields(p, qs, ss);
    KeepCleanQueries(p.queries);
    KeepCleanSteps(p.steps);
    assert ListOf(JArr(qs)) == Ok(qs);
    assert ListOf(JArr(ss)) == Ok(ss);
    assert SliceTo(p.queries, 3) == p.queries[..|p.queries|] == p.queries;
    assert SliceTo(p.steps, 3) == p.steps[..|p.steps|] == p.steps;
    assert Assemble(PlanJson(p).fields, qs, ss) == p;
  }

  lemma PlanFields(p: QueryPlan, qs: seq<Json>, ss: seq<Json>)
    requires qs == Strs(p.queries) && ss == Strs(p.steps)
    ensures Get(PlanJson(p).fields, "need_search", JBool(false)) == JBool(p.needSearch)
    ensures Get(PlanJson(p).fields, "queries", JNull) == JArr(qs)
    ensures Get(PlanJson(p).fields, "answer", JNull) == p.answer
    ensures Get(PlanJson(p).fields, "reason", JNull) == p.reason
    ensures Get(PlanJson(p).fields, "steps", JNull) == JArr(ss)
  {
    var f := PlanJson(p).fields;
    GetFirst(f, 0, "need_search", JBool(false));
    GetFirst(f, 1, "queries", JNull);
    GetFirst(f, 2, "answer", JNull);
    GetFirst(f, 3, "reason", JNull);
    GetFirst(f, 4, "steps", JNull);
  }

  // ---------------------------------------------------------------------
  // ChatAgent.answer_with_sources

  /** Configuration values the agent reads. */
  datatype Settings = Settings(retryIfShort: bool, minChars: int, fetchMaxPages: int, maxDocChars: int)

  /** The stripped snippet (or content) of a page, cut to 160 characters. */
  function FallbackSnippet(d: Search.Page): (r: string)
    ensures |r| <= 160
  {
    SliceTo(Strip(if d.snippet != "" then d.snippet else d.content), 160)
  }

  /** The `i`-th line of the fallback summary: number, title and snippet. */
  function FallbackLine(i: nat, d: Search.Page): string
  {
    (NatToString(i) + ". ") + FallbackText(d)
  }

  /** The stripped title (or "Untitled") and the snippet of a page. */
  function FallbackText(d: Search.Page): string
  {
    Strip(if d.title != "" then d.title else "Untitled") + " — " + FallbackSnippet(d)
  }

  /** The numbered lines for `docs`, built one by one as `enumerate(docs, 1)` does. */
  function FallbackLines(docs: seq<Search.Page>): (r: seq<string>)
    ensures |r| == |docs|
    ensures forall i :: 0 <= i < |docs| ==> r[i] == FallbackLine(i + 1, docs[i])
    decreases |docs|
  {
    if docs == [] then []
    else FallbackLines(docs[..|docs| - 1]) + [FallbackLine(|docs|, docs[|docs| - 1])]
  }

  /** The summary built from titles and snippets when the model's answer is blank. */
  function FallbackSummary(pages: seq<Search.Page>): string
  {
    Join("\n", FallbackLines(SliceTo(pages, 5)))
  }

  /** The fallback has one numbered line for each of the first five pages and is never blank. */
  lemma FallbackShape(pages: seq<Search.Page>)
    requires pages != []
    ensures |FallbackLines(SliceTo(pages, 5))| == Min(5, |pages|)
    ensures StartsWith(FallbackSummary(pages), "1. ")
    ensures NonBlank(FallbackSummary(pages))
  {
    FallbackStartsWithOne(pages);
    var summary := FallbackSummary(pages);
    assert summary[..3] == "1. ";
    assert summary[0] == '1' && !IsSpace(summary[0]);
  }

  lemma FallbackStartsWithOne(pages: seq<Search.Page>)
    requires pages != []
    ensures StartsWith(FallbackSummary(pages), "1. ")
  {
    var lines := FallbackLines(SliceTo(pages, 5));
    JoinStartsWith("\n", lines);
    LineStartsWithNumber(1, pages[0]);
    assert NatToString(1) + ". " == "1. ";
  }

  lemma LineStartsWithNumber(i: nat, d: Search.Page)
    ensures StartsWith(FallbackLine(i, d), NatToString(i) + ". ")
  {
    PrefixStartsWith(NatToString(i) + ". ", FallbackText(d));
  }

  lemma PrefixStartsWith(head: string, rest: string)
    ensures StartsWith(head + rest, head)
  {
    assert (head + rest)[..|head|] == head;
  }

  lemma JoinStartsWith(sep: string, parts: seq<string>)
    requires parts != []
    ensures StartsWith(Join(sep, parts), parts[0])
  {
    if |parts| > 1 {
      var rest := sep + Join(sep, parts[1..]);
      assert Join(sep, parts) == parts[0] + rest;
      assert (parts[0] + rest)[..|parts[0]|] == parts[0];
    }
  }

  /**
    * `answer_with_sources` after the prompt is built: the model's answer,
    * asked a second time with a stricter instruction when it is shorter
    * than `minChars` once stripped, and replaced by the fallback summary
    * when it is still blank. `answer(0)` and `answer(1)` are the two calls.
    */
  function AnswerSpec(pages: seq<Search.Page>, s: Settings, answer: nat -> Result<string>): (r: Result<string>)
    ensures r.Err? ==> r == answer(0) || r == answer(1)
  {
    match answer(0)
    case Err(e) => Err(e)
    case Ok(first) =>
      var second := if s.retryIfShort && |Strip(first)| < s.minChars then answer(1) else Ok(first);
      match second
      case Err(e) => Err(e)
      case Ok(final) => Ok(if Strip(final) == [] then FallbackSummary(pages) else final)
  }

  /** With at least one page the answer is never blank. */
  lemma AnswerNeverBlank(pages: seq<Search.Page>, s: Settings, answer: nat -> Result<string>)
    requires pages != [] && AnswerSpec(pages, s, answer).Ok?
    ensures NonBlank(AnswerSpec(pages, s, answer).value)
  {
    var first := answer(0).value;
    var final := if s.retryIfShort && |Strip(first)| < s.minChars then answer(1).value else first;
    if Strip(final) == [] {
      FallbackShape(pages);
    } else {
      StripEnds(final);
    }
  }

  /** A long enough first answer is kept, and the second call is never made. */
  lemma LongAnswerKept(pages: seq<Search.Page>, s: Settings, answer: nat -> Result<string>, answer': nat -> Result<string>)
    requires answer(0).Ok? && |Strip(answer(0).value)| >= s.minChars && Strip(answer(0).value) != []
    requires answer'(0) == answer(0)
    ensures AnswerSpec(pages, s, answer) == Ok(answer(0).value)
    ensures AnswerSpec(pages, s, answer') == AnswerSpec(pages, s, answer)
  {
  }

  // ---------------------------------------------------------------------
  // The list of sources

  /** `[p.get("url") for p in pages if p.get("url")]`. */
  function PageUrls(pages: seq<Search.Page>): (r: seq<string>)
    ensures |r| <= |pages|
    ensures forall i :: 0 <= i < |r| ==> r[i] != ""
    decreases |pages|
  {
    if pages == [] then []
    else (if pages[0].url != "" then [pages[0].url] else []) + PageUrls(pages[1..])
  }

  /** The answer, with the sources label and the page URLs appended unless the label is already there. */
  function WithSourcesLabel(answer: string, pages: seq<Search.Page>, query: string): (r: string)
    ensures Contains(r, SourcesLabelFor(Some(query)))
    ensures StartsWith(r, answer)
    ensures Contains(answer, SourcesLabelFor(Some(query))) ==> r == answer
  {
    var heading := SourcesLabelFor(Some(query));
    if Contains(answer, heading) then answer
    else
      var r := answer + "\n\n" + heading + ":\n" + Join("\n", PageUrls(pages));
      assert OccursAt(r, heading, |answer| + 2);
      assert r[..|answer|] == answer;
      r
  }

  const NoCachedSources: string := "[No cached sources. First perform a search (e.g., /web ...).]"
  const NoSourcesFound: string := "[No sources found for the query. Try rephrasing.]"

  /** `answer_from_last_context(user_query)` over the cached pages. */
  function AnswerFromContext(query: string, cached: seq<Search.Page>, s: Settings, answer: nat -> Result<string>): (r: string)
    ensures cached == [] ==> r == NoCachedSources
    ensures cached != [] && AnswerSpec(cached, s, answer).Err? ==>
      r == "[Answer generation error: " + AnswerSpec(cached, s, answer).error + "]"
    ensures cached != [] && AnswerSpec(cached, s, answer).Ok? ==>
      StartsWith(r, AnswerSpec(cached, s, answer).value) && Contains(r, SourcesLabelFor(Some(query)))
  {
    if cached == [] then NoCachedSources
    else match AnswerSpec(cached, s, answer)
      case Err(e) => "[Answer generation error: " + e + "]"
      case Ok(a) => WithSourcesLabel(a, cached, query)
  }

  // ---------------------------------------------------------------------
  // ChatAgent.handle_query

  const RecallTriggers: seq<string> := [
    "о чем мы", "что мы обсуждали", "что я тебя спрашивал", "история разговора", "из контекста",
    "what did we talk", "what have we discussed", "conversation history", "what we just talked"]

  const ContextTriggers: seq<string> := [
    "прочитай эти страницы", "по этим источникам", "по этим страницам", "суммаризируй",
    "read these pages", "from these sources", "from these pages", "summarize"]

  /** `any(t in text for t in triggers)`. */
  predicate AnyIn(triggers: seq<string>, text: string)
  {
    exists i :: 0 <= i < |triggers| && Contains(text, triggers[i])
  }

  const RecapHeader: string := "Here's a brief recap of our recent conversation:\n\n"

  const PlannerInstructions: string :=
    "You are a planner for a helpful assistant. If answering requires internet search, return need_search=true and propose 1–3 precise search queries in 'queries'. "
    + "If search is not needed, return need_search=false and provide a short direct answer in 'answer'. "
    + "Also return a short 'reason' (<=1 sentence, no chain-of-thought) and an array 'steps' with 1–3 short step names. "
    + "Use the user's language for any natural text fields."

  const DirectContextIntro: string := "Use the following recent conversation context if it helps answer the user succinctly.\n\n"

  /** The planner's user message: recent conversation (when any), then the question. */
  function PlannerPrompt(context: string, query: string): string
  {
    (if context != "" then "Recent conversation (most recent last):\n" + context + "\n\n" else "")
      + "Question: " + query + "\n\n" + PlannerInstructions
  }

  /** The model and network calls a question may lead to. */
  datatype Oracles = Oracles(
    planner: string -> Result<Json>,
    direct: Option<string> -> Result<string>,
    answer: nat -> Result<string>,
    providers: Search.Providers,
    fetch: string -> Search.FetchOutcome)

  /** `plan(user_query)`: `chat_json` on the planner prompt, then sanitised. */
  function MakePlan(query: string, context: string, planner: string -> Result<Json>): (r: Result<QueryPlan>)
    ensures planner(PlannerPrompt(context, query)).Err? ==> r == Err(planner(PlannerPrompt(context, query)).error)
    ensures r.Ok? ==> WellFormed(r.value)
  {
    match planner(PlannerPrompt(context, query))
    case Err(e) => Err(e)
    case Ok(reply) =>
      var plan := SanitizePlan(reply);
      if plan.Ok? then
        SanitizedWellFormed(reply);
        plan
      else plan
  }

  /** The direct answer: the plan's own answer when truthy, otherwise one chat call. */
  function DirectReply(p: QueryPlan, context: string, direct: Option<string> -> Result<string>): (r: Json)
    ensures Truthy(p.answer) ==> r == p.answer
    ensures !Truthy(p.answer) ==>
      var reply := direct(if context != "" then Some(DirectContextIntro + context) else None);
      r == JStr(if reply.Ok? then reply.value else "[LLM error: " + reply.error + "]")
  {
    if Truthy(p.answer) then p.answer
    else match direct(if context != "" then Some(DirectContextIntro + context) else None)
      case Ok(t) => JStr(t)
      case Err(e) => JStr("[LLM error: " + e + "]")
  }

  /**
    * The pages `search_and_fetch` returns for the plan's queries, or the
    * exception a fetch raised.
    */
  function SearchPages(queries: seq<string>, s: Settings, o: Oracles): (r: Result<seq<Search.Page>>)
    ensures r.Ok? && s.fetchMaxPages >= 0 ==> |r.value| <= s.fetchMaxPages
    ensures r.Ok? && s.maxDocChars >= 0 ==> forall i :: 0 <= i < |r.value| ==> |r.value[i].content| <= s.maxDocChars
    ensures r.Ok? ==> forall i :: 0 <= i < |r.value| ==>
      r.value[i].url != "" && r.value[i].url in Search.Urls(Search.Dedup(Search.Stream(o.providers, queries)))
    ensures r.Err? ==> exists u :: u in Search.Urls(Search.Dedup(Search.Stream(o.providers, queries))) && o.fetch(u).ParseRaised?
  {
    var results := Search.Dedup(Search.Stream(o.providers, queries));
    var top := SliceTo(Search.Ranked(results, queries), s.fetchMaxPages);
    Search.RankedPrefixUrls(results, queries, s.fetchMaxPages);
    var r := Search.Pages(top, o.fetch, s.maxDocChars);
    if r.Err? then
      RaisingUrl(top, o.fetch);
      r
    else r
  }

  /** A fetch loop that raises did so for the URL of one of its items. */
  lemma RaisingUrl(top: seq<Search.Item>, fetch: string -> Search.FetchOutcome)
    requires Search.SomeRaises(top, fetch)
    ensures exists u :: u in Search.Urls(top) && fetch(u).ParseRaised?
  {
    var i :| 0 <= i < |top| && fetch(top[i].url).ParseRaised?;
    assert top[i].url in Search.Urls(top);
  }

  /**
    * `handle_query(user_query, force_web)`: the reply and the new cache of
    * pages. `recall` is the memory's `as_bullets(12, max_chars=240)` and
    * `context` its `as_bullets(8)`, both empty without a memory.
    */
  function Respond(query: string, forceWeb: bool, allowWeb: bool, cached: seq<Search.Page>,
                   recall: string, context: string, s: Settings, o: Oracles): (Json, seq<Search.Page>)
  {
    if recall != "" && AnyIn(RecallTriggers, Lower(Strip(query))) then (JStr(RecapHeader + recall), cached)
    else Proceed(query, forceWeb, allowWeb, cached, context, s, o)
  }

  lemma RecallAnswers(query: string, forceWeb: bool, allowWeb: bool, cached: seq<Search.Page>,
                      recall: string, context: string, s: Settings, o: Oracles)
    requires recall != "" && AnyIn(RecallTriggers, Lower(Strip(query)))
    ensures Respond(query, forceWeb, allowWeb, cached, recall, context, s, o) == (JStr(RecapHeader + recall), cached)
  {
  }

  lemma PastRecall(query: string, forceWeb: bool, allowWeb: bool, cached: seq<Search.Page>,
                   recall: string, context: string, s: Settings, o: Oracles)
    requires !(recall != "" && AnyIn(RecallTriggers, Lower(Strip(query))))
    ensures Respond(query, forceWeb, allowWeb, cached, recall, context, s, o)
         == Proceed(query, forceWeb, allowWeb, cached, context, s, o)
  {
  }

  /** `handle_query` past the recall check. */
  function Proceed(query: string, forceWeb: bool, allowWeb: bool, cached: seq<Search.Page>,
                   context: string, s: Settings, o: Oracles): (Json, seq<Search.Page>)
  {
    if cached != [] && AnyIn(ContextTriggers, Lower(Strip(query))) then
      (JStr(AnswerFromContext(query, cached, s, o.answer)), cached)
    else match MakePlan(query, context, o.planner)
      case Err(e) => (JStr("[Planning error: " + e + "]"), cached)
      case Ok(p) =>
        if (!p.needSearch || !allowWeb) && !forceWeb then (DirectReply(p, context, o.direct), cached)
        else SearchReply(query, p.queries, cached, s, o)
  }

  /** The search branch: no pages leaves the cache alone; otherwise they are cached and answered from. */
  function SearchReply(query: string, queries: seq<string>, cached: seq<Search.Page>, s: Settings, o: Oracles)
    : (r: (Json, seq<Search.Page>))
    ensures r.1 == cached || (SearchPages(queries, s, o).Ok? && r.1 == SearchPages(queries, s, o).value && r.1 != [])
    ensures r.1 != cached ==> r.0.JStr?
    ensures SearchPages(queries, s, o).Err? ==>
      r == (JStr("[Search/fetch error: " + SearchPages(queries, s, o).error + "]"), cached)
  {
    match SearchPages(queries, s, o)
    case Err(e) => (JStr("[Search/fetch error: " + e + "]"), cached)
    case Ok(pages) =>
      if pages == [] then (JStr(NoSourcesFound), cached)
      else match AnswerSpec(pages, s, o.answer)
        case Err(e) => (JStr("[Answer generation error: " + e + "]"), pages)
        case Ok(a) => (JStr(WithSourcesLabel(a, pages, query)), pages)
  }

  /** A recall question with a non-empty memory is answered by the recap, whatever the model would say. */
  lemma RecallSkipsPlanning(query: string, forceWeb: bool, allowWeb: bool, cached: seq<Search.Page>,
                            recall: string, context: string, s: Settings, o: Oracles, o': Oracles)
    requires recall != "" && AnyIn(RecallTriggers, Lower(Strip(query)))
    ensures Respond(query, forceWeb, allowWeb, cached, recall, context, s, o).0 == JStr(RecapHeader + recall)
    ensures Respond(query, forceWeb, allowWeb, cached, recall, context, s, o)
         == Respond(query, forceWeb, allowWeb, cached, recall, context, s, o')
  {
  }

  /** A request about the cached pages answers from them, without planning or searching. */
  lemma ContextSkipsPlanning(query: string, forceWeb: bool, allowWeb: bool, cached: seq<Search.Page>,
                             recall: string, context: string, s: Settings, o: Oracles, o': Oracles)
    requires !(recall != "" && AnyIn(RecallTriggers, Lower(Strip(query))))
    requires cached != [] && AnyIn(ContextTriggers, Lower(Strip(query)))
    requires o'.answer == o.answer
    ensures Respond(query, forceWeb, allowWeb, cached, recall, context, s, o)
         == Respond(query, forceWeb, allowWeb, cached, recall, context, s, o')
    ensures Respond(query, forceWeb, allowWeb, cached, recall, context, s, o).1 == cached
  {
  }

  /** The cache changes only to the non-empty pages of a search made for this question. */
  lemma CacheOnlyFromSearch(query: string, forceWeb: bool, allowWeb: bool, cached: seq<Search.Page>,
                            recall: string, context: string, s: Settings, o: Oracles)
    ensures var (_, after) := Respond(query, forceWeb, allowWeb, cached, recall, context, s, o);
      || after == cached
      || (&& after != []
          && MakePlan(query, context, o.planner).Ok?
          && SearchPages(MakePlan(query, context, o.planner).value.queries, s, o).Ok?
          && after == SearchPages(MakePlan(query, context, o.planner).value.queries, s, o).value)
  {
    if recall != "" && AnyIn(RecallTriggers, Lower(Strip(query))) {
      RecallAnswers(query, forceWeb, allowWeb, cached, recall, context, s, o);
    } else {
      PastRecall(query, forceWeb, allowWeb, cached, recall, context, s, o);
      ProceedCacheOnlyFromSearch(query, forceWeb, allowWeb, cached, context, s, o);
    }
  }

  lemma ProceedCacheOnlyFromSearch(query: string, forceWeb: bool, allowWeb: bool, cached: seq<Search.Page>,
                                   context: string, s: Settings, o: Oracles)
    ensures var (_, after) := Proceed(query, forceWeb, allowWeb, cached, context, s, o);
      || after == cached
      || (&& after != []
          && MakePlan(query, context, o.planner).Ok?
          && SearchPages(MakePlan(query, context, o.planner).value.queries, s, o).Ok?
          && after == SearchPages(MakePlan(query, context, o.planner).value.queries, s, o).value)
  {
  }

  /** Without a need to search (and without `force_web`) nothing is searched and the cache is kept. */
  lemma NoSearchWhenNotNeeded(query: string, forceWeb: bool, allowWeb: bool, cached: seq<Search.Page>,
                              recall: string, context: string, s: Settings, o: Oracles,
                              providers: Search.Providers, fetch: string -> Search.FetchOutcome)
    requires MakePlan(query, context, o.planner).Ok?
    requires var p := MakePlan(query, context, o.planner).value; (!p.needSearch || !allowWeb) && !forceWeb
    ensures Respond(query, forceWeb, allowWeb, cached, recall, context, s, o).1 == cached
    ensures Respond(query, forceWeb, allowWeb, cached, recall, context, s, o)
         == Respond(query, forceWeb, allowWeb, cached, recall, context, s, o.(providers := providers, fetch := fetch))
  {
  }

  /** Every answer built from fetched pages names its sources section. */
  lemma SearchedAnswerHasLabel(query: string, forceWeb: bool, allowWeb: bool, cached: seq<Search.Page>,
                               recall: string, context: string, s: Settings, o: Oracles)
    requires !(recall != "" && AnyIn(RecallTriggers, Lower(Strip(query))))
    requires !(cached != [] && AnyIn(ContextTriggers, Lower(Strip(query))))
    requires MakePlan(query, context, o.planner).Ok?
    requires var p := MakePlan(query, context, o.planner).value;
      && !((!p.needSearch || !allowWeb) && !forceWeb)
      && SearchPages(p.queries, s, o).Ok?
      && SearchPages(p.queries, s, o).value != []
      && AnswerSpec(SearchPages(p.queries, s, o).value, s, o.answer).Ok?
    ensures var r := Respond(query, forceWeb, allowWeb, cached, recall, context, s, o).0;
      r.JStr? && Contains(r.s, SourcesLabelFor(Some(query)))
  {
  }

  // ---------------------------------------------------------------------
  // The agent

  /** `memory.as_bullets(n, max_chars)`, or nothing without a memory. */
  function MemoryBullets(mem: ConversationMemory?, n: int, maxChars: int): string
    reads mem
  {
    if mem == null then "" else Join("\n", Bullets(mem.Recent(n), maxChars))
  }

  class ChatAgent {
    const allowWeb: bool
    const memory: ConversationMemory?
    const settings: Settings
    /** The pages of the last successful search, for follow-up questions. */
    var lastContextPages: seq<Search.Page>

    constructor (allowWeb: bool, memory: ConversationMemory?, settings: Settings)
      ensures this.allowWeb == allowWeb && this.memory == memory && this.settings == settings
      ensures lastContextPages == []
    {
      this.allowWeb := allowWeb;
      this.memory := memory;
      this.settings := settings;
      lastContextPages := [];
    }

    method Bullets(n: int, maxChars: int) returns (b: string)
      ensures b == MemoryBullets(memory, n, maxChars)
    {
      if memory == null {
        b := "";
      } else {
        b := memory.AsBullets(n, maxChars);
      }
    }

    /** `plan(user_query)`. */
    method Plan(query: string, planner: string -> Result<Json>) returns (r: Result<QueryPlan>)
      ensures r == MakePlan(query, MemoryBullets(memory, 8, 160), planner)
    {
      var context := Bullets(8, 160);
      var reply := planner(PlannerPrompt(context, query));
      if reply.Err? {
        return Err(reply.error);
      }
      r := SanitizePlan(reply.value);
    }

    /** `answer_with_sources(user_query, context_docs)`, from the model's two possible answers on. */
    method AnswerWithSources(pages: seq<Search.Page>, answer: nat -> Result<string>) returns (r: Result<string>)
      ensures r == AnswerSpec(pages, settings, answer)
    {
      var reply := answer(0);
      if reply.Err? {
        return reply;
      }
      var final := reply.value;
      if settings.retryIfShort && |Strip(final)| < settings.minChars {
        reply := answer(1);
        if reply.Err? {
          return reply;
        }
        final := reply.value;
      }
      if Strip(final) == [] {
        final := Fallback(pages);
      }
      r := Ok(final);
    }

    /** The fallback loop of `answer_with_sources`. */
    method Fallback(pages: seq<Search.Page>) returns (text: string)
      ensures text == FallbackSummary(pages)
    {
      var docs := SliceTo(pages, 5);
      var bullets: seq<string> := [];
      for i := 0 to |docs|
        invariant bullets == FallbackLines(docs[..i])
      {
        assert docs[..i + 1][..i] == docs[..i];
        bullets := bullets + [FallbackLine(i + 1, docs[i])];
      }
      assert docs[..|docs|] == docs;
      text := Join("\n", bullets);
    }

    /** `answer_from_last_context(user_query)`. */
    method AnswerFromLastContext(query: string, answer: nat -> Result<string>) returns (r: string)
      ensures r == AnswerFromContext(query, lastContextPages, settings, answer)
    {
      if lastContextPages == [] {
        return NoCachedSources;
      }
      var a := AnswerWithSources(lastContextPages, answer);
      if a.Err? {
        return "[Answer generation error: " + a.error + "]";
      }
      r := WithSourcesLabel(a.value, lastContextPages, query);
    }

    /** `handle_query(user_query, force_web)`: the reply; a successful search replaces the cached pages. */
    method HandleQuery(query: string, forceWeb: bool, o: Oracles) returns (reply: Json)
      modifies this
      ensures (reply, lastContextPages) == Respond(query, forceWeb, allowWeb, old(lastContextPages),
        old(MemoryBullets(memory, 12, 240)), old(MemoryBullets(memory, 8, 160)), settings, o)
    {
      ghost var recall := MemoryBullets(memory, 12, 240);
      ghost var context := MemoryBullets(memory, 8, 160);
      ghost var cached := lastContextPages;
      var asked := AnyIn(RecallTriggers, Lower(Strip(query)));
      if memory != null && asked {
        var recap := memory.AsBullets(12, 240);
        if recap != "" {
          RecallAnswers(query, forceWeb, allowWeb, cached, recall, context, settings, o);
          return JStr(RecapHeader + recap);
        }
      }
      PastRecall(query, forceWeb, allowWeb, cached, recall, context, settings, o);
      reply := ProceedQuery(query, forceWeb, o);
    }

    /** `handle_query` past the recall check. */
    method ProceedQuery(query: string, forceWeb: bool, o: Oracles) returns (reply: Json)
      modifies this
      ensures (reply, lastContextPages) == Proceed(query, forceWeb, allowWeb, old(lastContextPages),
        old(MemoryBullets(memory, 8, 160)), settings, o)
    {
      if lastContextPages != [] && AnyIn(ContextTriggers, Lower(Strip(query))) {
        var a := AnswerFromLastContext(query, o.answer);
        return JStr(a);
      }
      var plan := Plan(query, o.planner);
      if plan.Err? {
        return JStr("[Planning error: " + plan.error + "]");
      }
      var p := plan.value;
      if (!p.needSearch || !allowWeb) && !forceWeb {
        reply := AnswerDirectly(p, o.direct);
        return;
      }
      reply := SearchAndAnswer(query, p.queries, o);
    }

    /** The direct-answer branch of `handle_query`. */
    method AnswerDirectly(p: QueryPlan, direct: Option<string> -> Result<string>) returns (reply: Json)
      ensures reply == DirectReply(p, MemoryBullets(memory, 8, 160), direct)
    {
      if Truthy(p.answer) {
        return p.answer;
      }
      var context := Bullets(8, 160);
      var resp := direct(if context != "" then Some(DirectContextIntro + context) else None);
      if resp.Err? {
        return JStr("[LLM error: " + resp.error + "]");
      }
      reply := JStr(resp.value);
    }

    /** The search branch of `handle_query`: fetched pages are cached, then answered from. */
    method SearchAndAnswer(query: string, queries: seq<string>, o: Oracles) returns (reply: Json)
      modifies this
      ensures (reply, lastContextPages) == SearchReply(query, queries, old(lastContextPages), settings, o)
    {
      var results, fetched := Search.SearchAndFetch(queries, o.providers, settings.fetchMaxPages, settings.maxDocChars, o.fetch);
      if fetched.Err? {
        return JStr("[Search/fetch error: " + fetched.error + "]");
      }
      var pages := fetched.value;
      if pages == [] {
        return JStr(NoSourcesFound);
      }
      lastContextPages := pages;
      var a := AnswerWithSources(pages, o.answer);
      if a.Err? {
        return JStr("[Answer generation error: " + a.error + "]");
      }
      reply := JStr(WithSourcesLabel(a.value, pages, query));
    }
  }
}
