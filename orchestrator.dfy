/**
  * The router of the assistant: `Orchestrator.decide` asks the model for a
  * JSON decision and coerces whatever comes back into a dict with exactly five
  * keys. The model call itself is outside this module; `Decide` starts from
  * the value `chat_json` returned.
  */
module Orchestration {
  import opened Wrappers
  import opened Text
  import opened Json

  /** The keys of every decision, in the order the source builds them. */
  const DecisionKeys: seq<string> := ["need_action", "need_search", "clarify", "goal", "reason"]

  /** `clarify`: a string with non-blank content, stripped; anything else becomes `None`. */
  function Clarify(v: Json): (r: Json)
    ensures r == JNull || (r.JStr? && r.s != [] && Strip(r.s) == r.s)
    ensures r.JStr? <==> v.JStr? && Strip(v.s) != []
    ensures r.JStr? ==> r.s == Strip(v.s)
  {
    if v.JStr? && Strip(v.s) != [] then
      StripIdempotent(v.s);
      JStr(Strip(v.s))
    else JNull
  }

  /**
    * `decide` after the model call: a reply that is not a dict makes
    * `plan.get` raise; otherwise each of the five fields is coerced.
    */
  function Decide(reply: Json): (r: Result<Json>)
    ensures r.Err? <==> !reply.JObj?
    ensures r.Ok? ==> r.value.JObj? && Keys(r.value.fields) == DecisionKeys
    ensures r.Ok? ==> var f := r.value.fields;
      && f[0].1 == JBool(Truthy(Get(reply.fields, "need_action", JBool(false))))
      && f[1].1 == JBool(Truthy(Get(reply.fields, "need_search", JBool(false))))
      && f[2].1 == Clarify(Get(reply.fields, "clarify", JNull))
      && f[3].1 == Or(Get(reply.fields, "goal", JNull), JStr(""))
      && f[4].1 == Or(Get(reply.fields, "reason", JNull), JStr(""))
  {
    match reply
    case JObj(f) =>
      Ok(JObj([
        ("need_action", JBool(Truthy(Get(f, "need_action", JBool(false))))),
        ("need_search", JBool(Truthy(Get(f, "need_search", JBool(false))))),
        ("clarify", Clarify(Get(f, "clarify", JNull))),
        ("goal", Or(Get(f, "goal", JNull), JStr(""))),
        ("reason", Or(Get(f, "reason", JNull), JStr("")))]))
    case _ => Err(NoAttribute(reply, "get"))
  }

  /** Reading a decision back: `need_action` and `need_search` are booleans, `goal` and `reason` never falsy-but-present. */
  lemma {:induction false} DecisionShape(reply: Json)
    requires reply.JObj?
    ensures var d := Decide(reply).value.fields;
      && d[0].1.JBool? && d[1].1.JBool?
      && (d[2].1 == JNull || (d[2].1.JStr? && d[2].1.s != []))
      && (Truthy(d[3].1) || d[3].1 == JStr(""))
      && (Truthy(d[4].1) || d[4].1 == JStr(""))
  {
  }

  /** Coercing a decision a second time changes nothing. */
  lemma {:induction false} DecideIdempotent(reply: Json)
    requires reply.JObj?
    ensures Decide(Decide(reply).value) == Decide(reply)
  {
    var d := Decide(reply).value;
    var f := d.fields;
    assert Get(f, "need_action", JBool(false)) == f[0].1 by { LookupFive(f); }
    assert Get(f, "need_search", JBool(false)) == f[1].1 by { LookupFive(f); }
    assert Get(f, "clarify", JNull) == f[2].1 by { LookupFive(f); }
    assert Get(f, "goal", JNull) == f[3].1 by { LookupFive(f); }
    assert Get(f, "reason", JNull) == f[4].1 by { LookupFive(f); }
    var c := f[2].1;
    if c.JStr? {
      StripIdempotent(Strip(Get(reply.fields, "clarify", JNull).s));
    }
  }

  lemma LookupFive(f: Fields)
    requires Keys(f) == DecisionKeys
    ensures Lookup(f, "need_action") == Some(f[0].1)
    ensures Lookup(f, "need_search") == Some(f[1].1)
    ensures Lookup(f, "clarify") == Some(f[2].1)
    ensures Lookup(f, "goal") == Some(f[3].1)
    ensures Lookup(f, "reason") == Some(f[4].1)
  {
    assert f[0].0 == "need_action" && f[1].0 == "need_search" && f[2].0 == "clarify";
    assert f[3].0 == "goal" && f[4].0 == "reason";
    assert IndexOf(f, "need_action") == Some(0);
    assert IndexOf(f, "need_search") == Some(1);
    assert IndexOf(f, "clarify") == Some(2);
    assert IndexOf(f, "goal") == Some(3);
    assert IndexOf(f, "reason") == Some(4);
  }
}
