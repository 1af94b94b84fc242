/**
  * The autonomous developer agent: each round it asks the model for up to
  * three steps, normalises them, stops on `done`, on an empty plan or on a
  * plan identical to the previous round's, and otherwise runs the steps (a
  * PowerShell command or a file write), logging every outcome. It also stops
  * once a command shows the pygame smoke-test greeting, and after at most
  * `maxSteps` rounds.
  *
  * The model call, PowerShell, the file system and the content generator are
  * the functions of `Oracles`; their last argument is the number of steps the
  * task has run before, so the same command may fail in one round and succeed
  * in a later one. Whether the virtual environment's `python.exe` and
  * `pip.exe` exist are two booleans.
  */
module Actions {
  import opened Wrappers
  import opened Text
  import opened Json

  // ---------------------------------------------------------------------
  // Outside world

  /** What one PowerShell run reports; `seconds` is the duration as Python prints it. */
  datatype CmdResult = CmdResult(code: int, stdout: string, stderr: string, seconds: string)

  /** One transcript entry: a step and the result dict it produced. */
  datatype Entry = Entry(step: Fields, result: Fields)

  datatype Oracles = Oracles(
    /** `chat_json` on the primary (`false`) or the minimal (`true`) prompt, given the goal and the last six transcript entries. */
    planner: (string, bool, seq<Entry>) -> Result<Json>,
    /**
      * `run_powershell(command, cwd, timeout)`; `Err` is an exception it
      * raises (PowerShell missing, output that is not UTF-8).
      */
    run: (string, string, int, nat) -> Result<CmdResult>,
    /**
      * `write_text_file(base, path, content)`, returning the full path; `Err`
      * is an exception it raises (a path that names a directory, such as the
      * empty path that `workspace/` normalises to, or no permission).
      */
    write: (string, string, string, nat) -> Result<string>,
    /** The model call of `_gen_file_content(goal, path)`. */
    generate: (string, string, nat) -> Result<string>,
    /** Whether `.venv\Scripts\python.exe` exists in the workspace when the step with this number runs. */
    venvPython: nat -> bool,
    /** Whether `.venv\Scripts\pip.exe` exists in the workspace when the step with this number runs. */
    venvPip: nat -> bool)

  // ---------------------------------------------------------------------
  // Plans

  /** At most this many raw entries of a reply are looked at. */
  const MaxPlanSteps := 3

  /** The plan returned when both model calls fail. */
  datatype StepPlan = StepPlan(steps: seq<Fields>, reason: Json, done: bool)

  const ParseErrorPlan := StepPlan([], JStr("parse_error"), false)

  predicate IsStepType(t: Json)
  {
    t == JStr("cmd") || t == JStr("write")
  }

  function StepType(s: Fields): Json
  {
    Get(s, "type", JNull)
  }

  /** A raw entry survives normalisation: a dict whose type is `cmd` or `write`. */
  predicate Admissible(v: Json)
  {
    v.JObj? && IsStepType(StepType(v.fields))
  }

  /**
    * `plan.get("steps") or []`, a dict wrapped into a one-element list, then
    * `[:3]`; a truthy value of another unsliceable type raises TypeError.
    */
  function RawSteps(v: Json): (r: Result<seq<Json>>)
    ensures r.Ok? ==> |r.value| <= MaxPlanSteps
    ensures r.Err? <==> Truthy(v) && (v.JNull? || v.JBool? || v.JInt? || v.JFloat?)
    ensures v.JArr? ==> r == Ok(SliceTo(v.items, MaxPlanSteps))
  {
    if !Truthy(v) then Ok([])
    else match v
      case JObj(_) => Ok([v])
      case JArr(a) => Ok(SliceTo(a, MaxPlanSteps))
      case JStr(s) => Ok(Iterate(JStr(SliceTo(s, MaxPlanSteps))).value)
      case _ => Err("'" + TypeName(v) + "' object is not subscriptable")
  }

  /** The admissible entries of `raw`, in order. */
  function KeepSteps(raw: seq<Json>): (r: seq<Fields>)
    ensures |r| <= |raw|
    ensures forall k :: 0 <= k < |r| ==> IsStepType(StepType(r[k]))
    ensures r == [] <==> forall k :: 0 <= k < |raw| ==> !Admissible(raw[k])
    decreases |raw|
  {
    if raw == [] then []
    else
      var last := raw[|raw| - 1];
      KeepSteps(raw[..|raw| - 1]) + (if Admissible(last) then [last.fields] else [])
  }

  /** Filtering keeps the admissible entries in their order: it distributes over concatenation (`KeepStepsOne` is one entry). */
  lemma {:induction false} KeepStepsAppend(a: seq<Json>, b: seq<Json>)
    ensures KeepSteps(a + b) == KeepSteps(a) + KeepSteps(b)
    decreases |b|
  {
    if b == [] {
      assert a + b == a;
    } else {
      var init := b[..|b| - 1];
      var c := a + b;
      assert c[..|c| - 1] == a + init && c[|c| - 1] == b[|b| - 1];
      var last := b[|b| - 1];
      var tail := if Admissible(last) then [last.fields] else [];
      KeepStepsLast(c);
      KeepStepsLast(b);
      KeepStepsAppend(a, init);
      var x, y := KeepSteps(a), KeepSteps(init);
      assert KeepSteps(c) == (x + y) + tail;
      assert KeepSteps(b) == y + tail;
      assert (x + y) + tail == x + (y + tail);
    }
  }

  lemma KeepStepsLast(c: seq<Json>)
    requires c != []
    ensures KeepSteps(c) == KeepSteps(c[..|c| - 1]) + (if Admissible(c[|c| - 1]) then [c[|c| - 1].fields] else [])
  {
  }

  lemma KeepStepsOne(x: Json)
    ensures KeepSteps([x]) == (if Admissible(x) then [x.fields] else [])
  {
    assert [x][..0] == [];
  }

  /**
    * The normalisation of a model reply. A reply that is not a dict raises
    * AttributeError on `.get`, which the caller sees.
    */
  function Normalize(reply: Json): (r: Result<StepPlan>)
    ensures r.Ok? ==> |r.value.steps| <= MaxPlanSteps
    ensures r.Ok? ==> forall k :: 0 <= k < |r.value.steps| ==> IsStepType(StepType(r.value.steps[k]))
    ensures r.Ok? <==> reply.JObj? && RawSteps(Get(reply.fields, "steps", JNull)).Ok?
    ensures r.Ok? ==> r.value.done == Truthy(Get(reply.fields, "done", JBool(false)))
  {
    if !reply.JObj? then Err(NoAttribute(reply, "get"))
    else match RawSteps(Get(reply.fields, "steps", JNull))
      case Err(e) => Err(e)
      case Ok(raw) =>
        Ok(StepPlan(KeepSteps(raw), Get(reply.fields, "reason", JStr("")), Truthy(Get(reply.fields, "done", JBool(false)))))
  }

  /** The transcript entries the planning prompt shows: the newest six, or all of them when fewer. */
  function Recent(transcript: seq<Entry>): (r: seq<Entry>)
    ensures |r| == Min(6, |transcript|)
    ensures r == transcript[|transcript| - |r|..]
  {
    SliceFrom(transcript, -6)
  }

  /**
    * `ActionAgent.plan`: the primary call, then the minimal one if the first
    * raised, then the fixed parse-error plan if both raised.
    */
  function PlanSpec(goal: string, transcript: seq<Entry>, o: Oracles): (r: Result<StepPlan>)
    ensures r.Ok? ==> |r.value.steps| <= MaxPlanSteps
    ensures o.planner(goal, false, Recent(transcript)).Err? && o.planner(goal, true, Recent(transcript)).Err?
      ==> r == Ok(ParseErrorPlan)
    ensures r.Err? ==> exists minimal: bool :: o.planner(goal, minimal, Recent(transcript)).Ok?
  {
    var recent := Recent(transcript);
    match o.planner(goal, false, recent)
    case Ok(v) => Normalize(v)
    case Err(_) =>
      match o.planner(goal, true, recent)
      case Ok(v) => Normalize(v)
      case Err(_) => Ok(ParseErrorPlan)
  }

  /** Truncation comes before filtering: a valid fourth step is lost even when the first three are all dropped. */
  lemma TruncateBeforeFilter()
    ensures var step := JObj([("type", JStr("cmd")), ("command", JStr("dir"))]);
      var reply := JObj([("steps", JArr([JNull, JInt(1), JStr("x"), step]))]);
      Normalize(reply) == Ok(StepPlan([], JStr(""), false)) && KeepSteps([JNull, JInt(1), JStr("x"), step]) != []
  {
    var step := JObj([("type", JStr("cmd")), ("command", JStr("dir"))]);
    var raw := [JNull, JInt(1), JStr("x"), step];
    assert Admissible(raw[3]);
    assert SliceTo(raw, MaxPlanSteps) == raw[..3];
  }

  // ---------------------------------------------------------------------
  // Plan signatures

  /** `f"{type}::{path or ''}::{command or ''}"` for one step. */
  function StepSig(s: Fields): string
  {
    Str(StepType(s)) + "::" + Str(Or(Get(s, "path", JNull), JStr(""))) + "::" + Str(Or(Get(s, "command", JNull), JStr("")))
  }

  function Sigs(steps: seq<Fields>): (r: seq<string>)
    ensures |r| == |steps|
    ensures forall k :: 0 <= k < |steps| ==> r[k] == StepSig(steps[k])
  {
    seq(|steps|, k requires 0 <= k < |steps| => StepSig(steps[k]))
  }

  /** The signature by which a repeated plan is recognised. */
  function Signature(steps: seq<Fields>): string
  {
    Join("|", Sigs(steps))
  }

  /** The signature of two plans run together is theirs joined by `|`: the pieces follow the steps in order. */
  lemma SignatureConcat(a: seq<Fields>, b: seq<Fields>)
    requires a != [] && b != []
    ensures Signature(a + b) == Signature(a) + "|" + Signature(b)
  {
    assert Sigs(a + b) == Sigs(a) + Sigs(b);
    JoinConcat("|", Sigs(a), Sigs(b));
  }

  /** A command step's piece of the signature: its type, an empty path and its command. */
  function CmdStep(command: string): Fields
  {
    [("type", JStr("cmd")), ("command", JStr(command))]
  }

  lemma CmdStepSig(command: string)
    ensures StepSig(CmdStep(command)) == "cmd::::" + command
  {
    var f := CmdStep(command);
    assert IndexOf(f, "type") == Some(0);
    assert IndexOf(f[1..], "path") == None;
    assert IndexOf(f, "path") == None;
    assert IndexOf(f, "command") == Some(1);
  }

  lemma SigsOfTwo(a: Fields, b: Fields)
    ensures Signature([a, b]) == StepSig(a) + "|" + StepSig(b)
  {
    assert Sigs([a, b]) == [StepSig(a)] + [StepSig(b)];
    JoinCons("|", StepSig(a), [StepSig(b)]);
  }

  lemma SigOfOne(a: Fields)
    ensures Signature([a]) == StepSig(a)
  {
    assert Sigs([a]) == [StepSig(a)];
  }

  lemma CmdPairSig(a: string, b: string)
    ensures Signature([CmdStep(a), CmdStep(b)]) == "cmd::::" + a + "|cmd::::" + b
  {
    CmdStepSig(a);
    CmdStepSig(b);
    SigsOfTwo(CmdStep(a), CmdStep(b));
  }

  /** Two commands of the same length in the other order give another signature. */
  lemma SignatureOrderSensitive(a: string, b: string)
    requires |a| == |b| && a != b
    ensures Signature([CmdStep(a), CmdStep(b)]) != Signature([CmdStep(b), CmdStep(a)])
  {
    CmdPairSig(a, b);
    CmdPairSig(b, a);
    var n := 7 + |a|;
    assert ("cmd::::" + a + "|cmd::::" + b)[..n] == "cmd::::" + a;
    assert ("cmd::::" + b + "|cmd::::" + a)[..n] == "cmd::::" + b;
    assert ("cmd::::" + a)[7..] == a;
    assert ("cmd::::" + b)[7..] == b;
  }

  /**
    * Two commands and the single command that joins them with the separator
    * are different plans with one signature: the second is then taken for a
    * repetition.
    */
  lemma SignatureCollision(a: string, b: string)
    ensures [CmdStep(a), CmdStep(b)] != [CmdStep(a + "|cmd::::" + b)]
    ensures Signature([CmdStep(a), CmdStep(b)]) == Signature([CmdStep(a + "|cmd::::" + b)])
  {
    CmdPairSig(a, b);
    CmdStepSig(a + "|cmd::::" + b);
    SigOfOne(CmdStep(a + "|cmd::::" + b));
    assert "cmd::::" + a + "|cmd::::" + b == "cmd::::" + (a + "|cmd::::" + b);
  }

  // ---------------------------------------------------------------------
  // Paths and commands

  /**
    * `_normalize_rel`: backslashes become `/`, leading `/` and `.` go, then
    * one leading `workspace/` in any letter case.
    */
  function NormalizeRel(p: string): (r: string)
    ensures '\\' !in r
    ensures |r| <= |p|
  {
    var q := LStripChars(ReplaceChar(p, '\\', '/'), {'/', '.'});
    SlashedHasNoBackslash(p);
    if StartsWith(Lower(q), "workspace/") then q[10..] else q
  }

  lemma SlashedHasNoBackslash(p: string)
    ensures '\\' !in LStripChars(ReplaceChar(p, '\\', '/'), {'/', '.'})
  {
    var slashed := ReplaceChar(p, '\\', '/');
    var q := LStripChars(slashed, {'/', '.'});
    forall i | 0 <= i < |q| ensures q[i] != '\\' {
      assert q[i] == slashed[|slashed| - |q| + i];
    }
  }

  lemma UnchangedWithoutBackslash(p: string)
    requires '\\' !in p
    ensures ReplaceChar(p, '\\', '/') == p
  {
  }

  /** A path already in normal form is left alone. */
  lemma NormalizeRelFixed(p: string)
    requires '\\' !in p
    requires p == [] || (p[0] != '/' && p[0] != '.')
    requires !StartsWith(Lower(p), "workspace/")
    ensures NormalizeRel(p) == p
  {
    assert ReplaceChar(p, '\\', '/') == p;
  }

  /** A text that does not start with a stripped character is left alone by the left-strip. */
  lemma KeptWhenNotLeading(p: string, cs: set<char>)
    requires p == [] || p[0] !in cs
    ensures LStripChars(p, cs) == p
  {
  }

  lemma LowerPrefix(prefix: string, rest: string)
    requires |prefix| == 10 && Lower(prefix) == "workspace/"
    ensures StartsWith(Lower(prefix + rest), "workspace/")
    ensures (prefix + rest)[0] != '/' && (prefix + rest)[0] != '.'
  {
    var p := prefix + rest;
    assert LowerChar(p[0]) == Lower(prefix)[0];
    assert Lower(p)[..10] == Lower(prefix);
  }

  /** A leading `workspace/`, in any letter case, is removed. */
  lemma {:induction false} NormalizeRelDropsPrefix(prefix: string, rest: string)
    requires |prefix| == 10 && Lower(prefix) == "workspace/"
    requires '\\' !in prefix + rest
    ensures NormalizeRel(prefix + rest) == rest
  {
    var p := prefix + rest;
    UnchangedWithoutBackslash(p);
    LowerPrefix(prefix, rest);
    KeptWhenNotLeading(p, {'/', '.'});
    assert p[10..] == rest;
  }

  /** Only one prefix is removed, so the normalisation is not idempotent. */
  lemma NormalizeRelNotIdempotent(rest: string)
    requires '\\' !in rest
    ensures NormalizeRel("workspace/workspace/" + rest) == "workspace/" + rest
    ensures NormalizeRel(NormalizeRel("workspace/workspace/" + rest)) == rest
  {
    assert Lower("workspace/") == "workspace/";
    assert "workspace/workspace/" + rest == "workspace/" + ("workspace/" + rest);
    NormalizeRelDropsPrefix("workspace/", "workspace/" + rest);
    NormalizeRelDropsPrefix("workspace/", rest);
  }

  function VenvPython(workspace: string): string
  {
    workspace + "\\.venv\\Scripts\\python.exe"
  }

  function VenvPip(workspace: string): string
  {
    workspace + "\\.venv\\Scripts\\pip.exe"
  }

  /** The workspace-prefix replacements, in the order they are applied. */
  const WorkspacePrefixes: seq<(string, string)> :=
    [(".\\workspace\\", ".\\"), ("./workspace/", "./"), ("workspace\\", ""), ("workspace/", "")]

  /** `s.replace(a1, b1).replace(a2, b2)...` for the pairs of `table`. */
  function ReplaceEach(s: string, table: seq<(string, string)>): string
    requires forall k :: 0 <= k < |table| ==> table[k].0 != []
    decreases |table|
  {
    if table == [] then s else ReplaceEach(Replace(s, table[0].0, table[0].1), table[1..])
  }

  function StripWorkspace(s: string): string
  {
    ReplaceEach(s, WorkspacePrefixes)
  }

  /**
    * One trimmed segment of `_rewrite_cmd_for_venv`. The source also
    * left-strips the lowered segment, which changes nothing on a trimmed one
    * (`TrimmedLowerNeedsNoLStrip`).
    */
  function RewriteSegment(seg: string, workspace: string, hasPython: bool, hasPip: bool): string
  {
    var low := Lower(seg);
    var head :=
      if StartsWith(low, "python ") && hasPython then "\"" + VenvPython(workspace) + "\"" + SliceFrom(seg, 6)
      else if StartsWith(low, "pip ") && hasPip then "\"" + VenvPip(workspace) + "\"" + SliceFrom(seg, 3)
      else seg;
    StripWorkspace(head)
  }

  /** The four replacements of `StripWorkspace`, written out. */
  lemma StripWorkspaceSteps(s: string)
    ensures StripWorkspace(s)
      == Replace(Replace(Replace(Replace(s, ".\\workspace\\", ".\\"), "./workspace/", "./"), "workspace\\", ""), "workspace/", "")
  {
    var t := WorkspacePrefixes;
    assert t[1..][1..][1..][1..] == [];
  }

  /** A string without any workspace prefix is left alone by the stripping. */
  lemma StripWorkspaceAbsent(s: string)
    requires !Contains(s, "workspace/") && !Contains(s, "workspace\\")
    ensures StripWorkspace(s) == s
  {
    StripWorkspaceSteps(s);
    if Contains(s, ".\\workspace\\") {
      assert OccursAt(".\\workspace\\", "workspace\\", 2);
      ContainsTransitive(s, ".\\workspace\\", "workspace\\");
    }
    ReplaceAbsent(s, ".\\workspace\\", ".\\");
    if Contains(s, "./workspace/") {
      assert OccursAt("./workspace/", "workspace/", 2);
      ContainsTransitive(s, "./workspace/", "workspace/");
    }
    ReplaceAbsent(s, "./workspace/", "./");
    ReplaceAbsent(s, "workspace\\", "");
    ReplaceAbsent(s, "workspace/", "");
  }

  /** A segment without a venv-tool prefix and without any workspace prefix comes back unchanged. */
  lemma RewritePlain(seg: string, workspace: string, hasPython: bool, hasPip: bool)
    requires !(hasPython && StartsWith(Lower(seg), "python "))
    requires !(hasPip && StartsWith(Lower(seg), "pip "))
    requires !Contains(seg, "workspace/") && !Contains(seg, "workspace\\")
    ensures RewriteSegment(seg, workspace, hasPython, hasPip) == seg
  {
    StripWorkspaceAbsent(seg);
  }

  /**
    * With the venv interpreter present, a leading `python ` in any letter
    * case becomes the quoted interpreter path and the rest of the segment is
    * kept.
    */
  lemma RewriteVenvPython(seg: string, workspace: string, hasPip: bool)
    requires StartsWith(Lower(seg), "python ")
    requires var head := "\"" + VenvPython(workspace) + "\"" + seg[6..];
      !Contains(head, "workspace/") && !Contains(head, "workspace\\")
    ensures RewriteSegment(seg, workspace, true, hasPip) == "\"" + VenvPython(workspace) + "\"" + seg[6..]
  {
    StripWorkspaceAbsent("\"" + VenvPython(workspace) + "\"" + seg[6..]);
  }

  /**
    * With the venv `pip.exe` present, a leading `pip ` in any letter case
    * becomes the quoted `pip.exe` path and the rest of the segment is kept,
    * whether or not the interpreter exists.
    */
  lemma RewriteVenvPip(seg: string, workspace: string, hasPython: bool)
    requires StartsWith(Lower(seg), "pip ")
    requires var head := "\"" + VenvPip(workspace) + "\"" + seg[3..];
      !Contains(head, "workspace/") && !Contains(head, "workspace\\")
    ensures RewriteSegment(seg, workspace, hasPython, true) == "\"" + VenvPip(workspace) + "\"" + seg[3..]
  {
    assert Lower(seg)[1] == 'i';
    StripWorkspaceAbsent("\"" + VenvPip(workspace) + "\"" + seg[3..]);
  }

  /**
    * The stripping also rewrites the inserted interpreter path: for a
    * workspace directory named `workspace` (under `C:\\`, say, or relative)
    * the path that remains is the `.venv` of the directory above it.
    */
  lemma StrippedVenvPath(dir: string, args: string)
    requires 'w' !in dir && '.' !in dir && 'w' !in args
    ensures StripWorkspace("\"" + VenvPython(dir + "workspace") + "\"" + args)
      == "\"" + dir + ".venv\\Scripts\\python.exe\"" + args
  {
    var a := "\"" + dir;
    var b := ".venv\\Scripts\\python.exe\"" + args;
    var s0 := "\"" + VenvPython(dir + "workspace") + "\"" + args;
    assert s0 == a + ("workspace\\" + b);
    assert 'w' !in b;
    PassesOverDirectory(a, b, ".\\workspace\\", ".\\");
    PassesOverDirectory(a, b, "./workspace/", "./");
    DropsDirectory(a, b);
    MissingCharNotContained(a + b, "workspace/", 'w');
    ReplaceAbsent(a + b, "workspace/", "");
    StripWorkspaceSteps(s0);
  }

  /** A pattern that starts with neither a character of `a` nor of `workspace\\`, and holds a `w`, is absent. */
  lemma PassesOverDirectory(a: string, b: string, pat: string, repl: string)
    requires pat != [] && pat[0] !in a + "workspace\\" && 'w' in pat && 'w' !in b
    ensures Replace(a + ("workspace\\" + b), pat, repl) == a + ("workspace\\" + b)
  {
    MissingCharNotContained(b, pat, 'w');
    ReplaceAbsent(b, pat, repl);
    ReplaceKeepsPrefix("workspace\\", b, pat, repl);
    ReplaceKeepsPrefix(a, "workspace\\" + b, pat, repl);
  }

  /** The one `workspace\\` between two `w`-free strings is removed. */
  lemma DropsDirectory(a: string, b: string)
    requires 'w' !in a && 'w' !in b
    ensures Replace(a + ("workspace\\" + b), "workspace\\", "") == a + b
  {
    MissingCharNotContained(b, "workspace\\", 'w');
    ReplaceAbsent(b, "workspace\\", "");
    assert Replace("workspace\\" + b, "workspace\\", "") == Replace(b, "workspace\\", "");
    ReplaceKeepsPrefix(a, "workspace\\" + b, "workspace\\", "");
  }

  /**
    * `python <args>` in a workspace directory named `workspace`, with the
    * venv interpreter present, runs the interpreter of the `.venv` one level
    * up; without the space after `python` the segment is left alone.
    */
  lemma RewriteVenvPythonStripped(dir: string, args: string, hasPip: bool)
    requires 'w' !in dir && '.' !in dir && 'w' !in args
    ensures RewriteSegment("python" + args, dir + "workspace", true, hasPip)
      == (if StartsWith(Lower("python" + args), "python ")
          then "\"" + dir + ".venv\\Scripts\\python.exe\"" + args
          else "python" + args)
  {
    var seg := "python" + args;
    if StartsWith(Lower(seg), "python ") {
      assert seg[6..] == args;
      StrippedVenvPath(dir, args);
    } else {
      assert Lower(seg)[1] == 'y';
      assert 'w' !in seg;
      MissingCharNotContained(seg, "workspace/", 'w');
      MissingCharNotContained(seg, "workspace\\", 'w');
      RewritePlain(seg, dir + "workspace", true, hasPip);
    }
  }

  /** The trimmed `;`-separated segments of a command. */
  function Segments(cmd: string): (r: seq<string>)
    ensures |r| == |Split(cmd, ';')|
  {
    var parts := Split(cmd, ';');
    seq(|parts|, k requires 0 <= k < |parts| => Strip(parts[k]))
  }

  /** Lower-casing keeps a trimmed segment free of leading whitespace, so `.lstrip()` after `.lower()` is the identity. */
  lemma TrimmedLowerNeedsNoLStrip(cmd: string)
    ensures forall k :: 0 <= k < |Segments(cmd)| ==> LStrip(Lower(Segments(cmd)[k])) == Lower(Segments(cmd)[k])
  {
    forall k | 0 <= k < |Segments(cmd)|
      ensures LStrip(Lower(Segments(cmd)[k])) == Lower(Segments(cmd)[k])
    {
      var seg := Segments(cmd)[k];
      assert seg == Strip(Split(cmd, ';')[k]);
      StripEnds(Split(cmd, ';')[k]);
      if seg != [] {
        assert !IsSpace(Lower(seg)[0]);
      }
    }
  }

  /** Every segment rewritten, one for one. */
  function RewriteAll(segs: seq<string>, workspace: string, hasPython: bool, hasPip: bool): (r: seq<string>)
    ensures |r| == |segs|
    ensures forall k :: 0 <= k < |segs| ==> r[k] == RewriteSegment(segs[k], workspace, hasPython, hasPip)
    decreases |segs|
  {
    if segs == [] then []
    else RewriteAll(segs[..|segs| - 1], workspace, hasPython, hasPip) + [RewriteSegment(segs[|segs| - 1], workspace, hasPython, hasPip)]
  }

  /** `_rewrite_cmd_for_venv`. */
  function RewriteCmd(cmd: string, workspace: string, hasPython: bool, hasPip: bool): string
  {
    Join("; ", RewriteAll(Segments(cmd), workspace, hasPython, hasPip))
  }

  /** Rewriting a segment brings in no `;` unless the workspace path has one. */
  lemma RewriteSegmentNoSemicolon(seg: string, workspace: string, hasPython: bool, hasPip: bool)
    requires ';' !in seg && ';' !in workspace
    ensures ';' !in RewriteSegment(seg, workspace, hasPython, hasPip)
  {
    var low := Lower(seg);
    var head :=
      if StartsWith(low, "python ") && hasPython then "\"" + VenvPython(workspace) + "\"" + SliceFrom(seg, 6)
      else if StartsWith(low, "pip ") && hasPip then "\"" + VenvPip(workspace) + "\"" + SliceFrom(seg, 3)
      else seg;
    assert ';' !in SliceFrom(seg, 6) && ';' !in SliceFrom(seg, 3);
    assert ';' !in head;
    var s1 := Replace(head, ".\\workspace\\", ".\\");
    ReplaceKeepsOut(head, ".\\workspace\\", ".\\", ';');
    var s2 := Replace(s1, "./workspace/", "./");
    ReplaceKeepsOut(s1, "./workspace/", "./", ';');
    var s3 := Replace(s2, "workspace\\", "");
    ReplaceKeepsOut(s2, "workspace\\", "", ';');
    ReplaceKeepsOut(s3, "workspace/", "", ';');
    StripWorkspaceSteps(head);
  }

  lemma SegmentsHaveNoSemicolon(cmd: string)
    ensures forall k :: 0 <= k < |Segments(cmd)| ==> ';' !in Segments(cmd)[k]
  {
    forall k | 0 <= k < |Segments(cmd)| ensures ';' !in Segments(cmd)[k] {
      var part := Split(cmd, ';')[k];
      var a, b := StripSpan(part);
      assert Segments(cmd)[k] == part[a..b];
    }
  }

  /**
    * The rewrite keeps a command's segments apart: splitting the result on
    * `;` gives one piece per segment of `cmd`, in order, each the rewritten
    * segment (behind the space of the `"; "` separator after the first).
    */
  lemma RewriteCmdKeepsSegments(cmd: string, workspace: string, hasPython: bool, hasPip: bool)
    requires ';' !in workspace
    ensures var segs := Segments(cmd);
      var pieces := Split(RewriteCmd(cmd, workspace, hasPython, hasPip), ';');
      |pieces| == |segs|
      && pieces[0] == RewriteSegment(segs[0], workspace, hasPython, hasPip)
      && forall k :: 0 < k < |segs| ==> pieces[k] == " " + RewriteSegment(segs[k], workspace, hasPython, hasPip)
  {
    var segs := Segments(cmd);
    var out := RewriteAll(segs, workspace, hasPython, hasPip);
    SegmentsHaveNoSemicolon(cmd);
    forall k | 0 <= k < |out| ensures ';' !in out[k] {
      RewriteSegmentNoSemicolon(segs[k], workspace, hasPython, hasPip);
    }
    if |out| == 1 {
      SplitJoin(out, ';');
    } else {
      JoinSemicolon(out);
      var parts := [out[0]] + Indented(out[1..]);
      forall k | 0 <= k < |parts| ensures ';' !in parts[k] {
        if k > 0 {
          assert parts[k] == " " + out[k];
        }
      }
      SplitJoin(parts, ';');
      assert forall k :: 0 < k < |segs| ==> parts[k] == " " + out[k];
    }
  }

  /** A one-segment command with nothing to rewrite is only trimmed. */
  lemma RewriteCmdPlain(cmd: string, workspace: string, hasPython: bool, hasPip: bool)
    requires ';' !in cmd
    requires !(hasPython && StartsWith(Lower(Strip(cmd)), "python "))
    requires !(hasPip && StartsWith(Lower(Strip(cmd)), "pip "))
    requires !Contains(Strip(cmd), "workspace/") && !Contains(Strip(cmd), "workspace\\")
    ensures RewriteCmd(cmd, workspace, hasPython, hasPip) == Strip(cmd)
  {
    assert Split(cmd, ';') == [cmd];
    assert Segments(cmd) == [Strip(cmd)];
    RewritePlain(Strip(cmd), workspace, hasPython, hasPip);
    assert RewriteAll([Strip(cmd)], workspace, hasPython, hasPip) == [Strip(cmd)];
  }

  // ---------------------------------------------------------------------
  // Running one step

  function ErrorResult(error: string): Fields
  {
    [("ok", JBool(false)), ("error", JStr(error))]
  }

  function RanResult(x: CmdResult): Fields
  {
    [("ok", JBool(x.code == 0)), ("code", JInt(x.code)), ("stdout", JStr(x.stdout)), ("stderr", JStr(x.stderr)), ("t", JFloat(x.seconds))]
  }

  function WroteResult(path: string, bytes: nat): Fields
  {
    [("ok", JBool(true)), ("path", JStr(path)), ("bytes", JInt(bytes))]
  }

  predicate Succeeded(result: Fields)
  {
    Truthy(Get(result, "ok", JNull))
  }

  /** `_gen_file_content`: the model's text, or `""` when the call raised. */
  function Generated(goal: string, path: string, n: nat, o: Oracles): string
  {
    match o.generate(goal, path, n)
    case Ok(text) => text
    case Err(_) => ""
  }

  /** The command handed to PowerShell by step `n`, rewritten for the venv as it then exists. */
  function CommandOf(step: Fields, workspace: string, n: nat, o: Oracles): string
  {
    var c := Get(step, "command", JStr(""));
    RewriteCmd(if c.JStr? then Strip(c.s) else "", workspace, o.venvPython(n), o.venvPip(n))
  }

  /**
    * The venv is looked for each time a command runs: the same `pip`
    * command is run as written at a step before the venv exists and through
    * the venv's pip at a step after it was created.
    */
  lemma VenvCheckedPerStep(cmd: string, workspace: string, n: nat, m: nat, o: Oracles)
    requires ';' !in cmd && Strip(cmd) == cmd && StartsWith(Lower(cmd), "pip ")
    requires !Contains(cmd, "workspace/") && !Contains(cmd, "workspace\\")
    requires var head := "\"" + VenvPip(workspace) + "\"" + cmd[3..];
      !Contains(head, "workspace/") && !Contains(head, "workspace\\")
    requires !o.venvPip(n) && o.venvPip(m)
    ensures CommandOf([("command", JStr(cmd))], workspace, n, o) == cmd
    ensures CommandOf([("command", JStr(cmd))], workspace, m, o) == "\"" + VenvPip(workspace) + "\"" + cmd[3..]
  {
    assert Lower(cmd)[1] == 'i';
    assert !StartsWith(Lower(cmd), "python ");
    RewriteCmdPlain(cmd, workspace, o.venvPython(n), false);
    assert Split(cmd, ';') == [cmd];
    assert Segments(cmd) == [cmd];
    RewriteVenvPip(cmd, workspace, o.venvPython(m));
  }

  /** The `cmd` branch of `run_step`: an empty command is refused, anything else is rewritten and run. */
  function RunCmd(step: Fields, workspace: string, timeout: int, n: nat, o: Oracles): (r: Result<Fields>)
    ensures var c := Get(step, "command", JStr(""));
      var ran := o.run(CommandOf(step, workspace, n, o), workspace, timeout, n);
      (r.Err? <==> !c.JStr? || (Strip(c.s) != "" && ran.Err?)) &&
      (r.Ok? ==> (Succeeded(r.value) <==> Strip(c.s) != "" && ran.value.code == 0)) &&
      (c.JStr? && Strip(c.s) == "" ==> r == Ok(ErrorResult("empty command")))
  {
    var c := Get(step, "command", JStr(""));
    if !c.JStr? then Err(NoAttribute(c, "strip"))
    else if Strip(c.s) == "" then Ok(ErrorResult("empty command"))
    else match o.run(CommandOf(step, workspace, n, o), workspace, timeout, n)
      case Err(e) => Err(e)
      case Ok(x) => Ok(RanResult(x))
  }

  /**
    * The `write` branch of `run_step`: an empty path is refused; otherwise
    * the path is normalised, missing content is generated, and the file is
    * written.
    */
  function RunWrite(step: Fields, goal: Option<string>, workspace: string, n: nat, o: Oracles): (r: Result<Fields>)
    ensures var p := Get(step, "path", JStr(""));
      (p.JStr? && Strip(p.s) == "" ==> r == Ok(ErrorResult("empty path"))) &&
      (r.Ok? ==> p.JStr? && (Succeeded(r.value) <==> Strip(p.s) != ""))
  {
    var p := Get(step, "path", JStr(""));
    var content := Get(step, "content", JStr(""));
    if !p.JStr? then Err(NoAttribute(p, "strip"))
    else if Strip(p.s) == "" then Ok(ErrorResult("empty path"))
    else
      var path := NormalizeRel(Strip(p.s));
      if !Truthy(content) && goal.None? then Err("'ActionAgent' object has no attribute '_current_goal'")
      else
        var text := if Truthy(content) then content else JStr(Generated(goal.value, path, n, o));
        if !text.JStr? then Err("data must be str, not " + TypeName(text))
        else match o.write(workspace, path, text.s, n)
          case Err(e) => Err(e)
          case Ok(full) => Ok(WroteResult(full, Utf8Length(text.s)))
  }

  /**
    * `run_step`. `goal` is the agent's current goal, absent before the first
    * task. `Err` is an exception the step raises, which ends the task.
    */
  function RunStep(step: Fields, goal: Option<string>, workspace: string, timeout: int, n: nat, o: Oracles): (r: Result<Fields>)
    ensures StepType(step) == JStr("cmd") ==> r == RunCmd(step, workspace, timeout, n, o)
    ensures StepType(step) == JStr("write") ==> r == RunWrite(step, goal, workspace, n, o)
    ensures !IsStepType(StepType(step)) ==> r == Ok(ErrorResult("unknown step type " + Str(StepType(step))))
    ensures r.Ok? && Succeeded(r.value) ==> IsStepType(StepType(step))
  {
    var t := StepType(step);
    if t == JStr("cmd") then RunCmd(step, workspace, timeout, n, o)
    else if t == JStr("write") then RunWrite(step, goal, workspace, n, o)
    else Ok(ErrorResult("unknown step type " + Str(t)))
  }

  /** The result of a write reports success and the byte count. */
  lemma WroteResultFields(path: string, bytes: nat)
    ensures Succeeded(WroteResult(path, bytes))
    ensures Get(WroteResult(path, bytes), "bytes", JNull) == JInt(bytes)
  {
    var w := WroteResult(path, bytes);
    assert IndexOf(w[2..], "bytes") == Some(0);
    assert w[1..][1..] == w[2..];
    assert IndexOf(w[1..], "bytes") == Some(1);
  }

  /**
    * A write step with a path and non-empty string content writes exactly
    * that content under the normalised path; unless the write raises, the
    * step succeeds and reports the content's UTF-8 size.
    */
  lemma WriteReportsBytes(step: Fields, goal: Option<string>, workspace: string, n: nat, o: Oracles)
    requires Get(step, "path", JStr("")).JStr? && Strip(Get(step, "path", JStr("")).s) != ""
    requires Get(step, "content", JStr("")).JStr? && Get(step, "content", JStr("")).s != ""
    ensures var content := Get(step, "content", JStr("")).s;
      var path := NormalizeRel(Strip(Get(step, "path", JStr("")).s));
      var r := RunWrite(step, goal, workspace, n, o);
      (r == match o.write(workspace, path, content, n)
        case Err(e) => Err(e)
        case Ok(full) => Ok(WroteResult(full, Utf8Length(content))))
      && (r.Ok? ==> Succeeded(r.value) && Get(r.value, "bytes", JNull) == JInt(Utf8Length(content)))
  {
    var content := Get(step, "content", JStr("")).s;
    var path := NormalizeRel(Strip(Get(step, "path", JStr("")).s));
    assert Truthy(Get(step, "content", JStr("")));
    var w := o.write(workspace, path, content, n);
    if w.Ok? {
      WroteResultFields(w.value, Utf8Length(content));
    }
  }

  /**
    * A write step without content writes what the model generates for the
    * goal and the normalised path, or the empty text when that call raised;
    * before any task has set a goal it raises instead.
    */
  lemma WriteGeneratesContent(step: Fields, goal: Option<string>, workspace: string, n: nat, o: Oracles)
    requires Get(step, "path", JStr("")).JStr? && Strip(Get(step, "path", JStr("")).s) != ""
    requires !Truthy(Get(step, "content", JStr("")))
    ensures var path := NormalizeRel(Strip(Get(step, "path", JStr("")).s));
      var r := RunWrite(step, goal, workspace, n, o);
      && (goal.None? ==> r == Err("'ActionAgent' object has no attribute '_current_goal'"))
      && (goal.Some? ==>
            var text := Generated(goal.value, path, n, o);
            && (o.generate(goal.value, path, n).Err? ==> text == "")
            && (o.generate(goal.value, path, n).Ok? ==> text == o.generate(goal.value, path, n).value)
            && r == match o.write(workspace, path, text, n)
                 case Err(e) => Err(e)
                 case Ok(full) => Ok(WroteResult(full, Utf8Length(text))))
  {
  }

  /**
    * A write to `workspace/` asks the file system to write the workspace
    * directory itself (the path normalises to `""`), and whatever the write
    * raises ends the step.
    */
  lemma WriteToWorkspaceDir(goal: Option<string>, workspace: string, n: nat, o: Oracles)
    ensures var step := [("type", JStr("write")), ("path", JStr("workspace/")), ("content", JStr("x"))];
      RunWrite(step, goal, workspace, n, o)
        == match o.write(workspace, "", "x", n) case Err(e) => Err(e) case Ok(full) => Ok(WroteResult(full, 1))
  {
    var step := [("type", JStr("write")), ("path", JStr("workspace/")), ("content", JStr("x"))];
    WorkspaceDirStepFields();
    WorkspaceDirNormalizesEmpty();
    assert Strip("workspace/") != "" && "x" != "";
    WriteReportsBytes(step, goal, workspace, n, o);
    assert Utf8Length("x") == 1;
  }

  lemma WorkspaceDirStepFields()
    ensures var step := [("type", JStr("write")), ("path", JStr("workspace/")), ("content", JStr("x"))];
      Get(step, "path", JStr("")) == JStr("workspace/") && Get(step, "content", JStr("")) == JStr("x")
  {
    var step := [("type", JStr("write")), ("path", JStr("workspace/")), ("content", JStr("x"))];
    assert IndexOf(step[1..], "path") == Some(0);
    assert step[1..][1..] == step[2..];
    assert IndexOf(step[2..], "content") == Some(0);
  }

  /** `workspace/` is stripped to nothing by `_normalize_rel`. */
  lemma WorkspaceDirNormalizesEmpty()
    ensures Strip("workspace/") == "workspace/" && NormalizeRel("workspace/") == ""
  {
    var p := "workspace/";
    assert !IsSpace(p[0]) && !IsSpace(p[|p| - 1]);
    LowerWorkspaceDir();
    NormalizeRelDropsPrefix(p, "");
    assert p + "" == p;
  }

  lemma LowerWorkspaceDir()
    ensures Lower("workspace/") == "workspace/"
  {
    var p := "workspace/";
    forall i | 0 <= i < |p| ensures LowerChar(p[i]) == p[i] {
      assert 'a' <= p[i] <= 'z' || p[i] == '/';
    }
  }

  // ---------------------------------------------------------------------
  // Running a batch

  const GoalLine := "Goal achieved. Stopping."
  const RepeatLine := "No progress detected (repeated plan). Stopping."
  const SmokeLine := "Smoke test output detected (pygame). Stopping."
  const NothingDone := "Task complete (see logs)."

  function NoStepsLine(i: nat): string
  {
    "No further steps at iteration " + NatToString(i) + "."
  }

  function FailedLine(result: Fields): string
  {
    "Failed: " + Str(JObj(result))
  }

  /** The pygame smoke-test greeting in a successful command's output. */
  predicate SmokeSeen(step: Fields, result: Fields)
  {
    StepType(step) == JStr("cmd") &&
    var low := Lower(Str(Or(Get(result, "stdout", JNull), JStr(""))) + Str(Or(Get(result, "stderr", JNull), JStr(""))));
    Contains(low, "pygame") && Contains(low, "hello from the pygame community")
  }

  /** Runs one step, given the number of steps the task has run before it. */
  type StepRunner = (nat, Fields) -> Result<Fields>

  /** `run_step` as the agent with this goal, workspace and timeout runs it. */
  function Runner(goal: Option<string>, workspace: string, timeout: int, o: Oracles): StepRunner
  {
    (n: nat, step: Fields) => RunStep(step, goal, workspace, timeout, n, o)
  }

  lemma RunnerApply(goal: Option<string>, workspace: string, timeout: int, o: Oracles, n: nat, step: Fields)
    ensures Runner(goal, workspace, timeout, o)(n, step) == RunStep(step, goal, workspace, timeout, n, o)
  {
  }

  /** The transcript entries and summary lines of a batch, and whether the smoke test showed. */
  datatype Batch = Batch(entries: seq<Entry>, lines: seq<string>, smoke: bool)

  /**
    * The steps of one plan, run in order; a failure is logged and the batch
    * goes on, a smoke-test success ends it.
    */
  function RunBatch(steps: seq<Fields>, done: nat, run: StepRunner): (r: Result<Batch>)
    ensures r.Ok? ==> Accounts(r.value, steps)
    decreases |steps|
  {
    if steps == [] then Ok(Batch([], [], false))
    else
      var step := steps[|steps| - 1];
      var init := steps[..|steps| - 1];
      match RunBatch(init, done, run)
      case Err(e) => Err(e)
      case Ok(b) =>
        if b.smoke then
          AccountsSmoke(b, steps);
          Ok(b)
        else match run(done + |init|, step)
          case Err(e) => Err(e)
          case Ok(res) =>
            AccountsExtend(b, steps, res);
            Ok(Extend(b, step, res))
  }

  /**
    * What a batch records about its steps: one entry per step run, in order,
    * at most one line per entry, every step run unless the smoke test ended
    * the batch early.
    */
  predicate Accounts(b: Batch, steps: seq<Fields>)
  {
    && |b.entries| <= |steps| && |b.lines| <= |b.entries|
    && (forall k :: 0 <= k < |b.entries| ==> b.entries[k].step == steps[k])
    && (!b.smoke ==> |b.entries| == |steps|)
    && (b.smoke ==> Settled(b, steps))
  }

  lemma AccountsSmoke(b: Batch, steps: seq<Fields>)
    requires steps != [] && Accounts(b, steps[..|steps| - 1]) && b.smoke
    ensures Accounts(b, steps)
  {
    var init := steps[..|steps| - 1];
    assert init[|b.entries| - 1] == steps[|b.entries| - 1];
  }

  lemma AccountsExtend(b: Batch, steps: seq<Fields>, res: Fields)
    requires steps != [] && Accounts(b, steps[..|steps| - 1]) && !b.smoke
    ensures Accounts(Extend(b, steps[|steps| - 1], res), steps)
  {
    var init := steps[..|steps| - 1];
    var r := Extend(b, steps[|steps| - 1], res);
    forall k | 0 <= k < |r.entries| ensures r.entries[k].step == steps[k] {
      if k < |b.entries| {
        assert r.entries[k] == b.entries[k] && init[k] == steps[k];
      }
    }
  }

  /** A batch that ended on the smoke-test greeting: its last entry is the successful command that showed it. */
  predicate Settled(b: Batch, steps: seq<Fields>)
  {
    var n := |b.entries|;
    0 < n <= |steps| && Succeeded(b.entries[n - 1].result) && SmokeSeen(steps[n - 1], b.entries[n - 1].result)
    && b.lines != [] && b.lines[|b.lines| - 1] == SmokeLine
  }

  /**
    * One more step's outcome logged after a batch that has not yet ended: a
    * failure adds its `Failed:` line and the batch goes on, the smoke-test
    * greeting adds the stopping line and ends it, any other success adds no
    * line.
    */
  function Extend(b: Batch, step: Fields, res: Fields): (r: Batch)
    ensures r.entries == b.entries + [Entry(step, res)]
    ensures !Succeeded(res) ==> r.lines == b.lines + [FailedLine(res)] && !r.smoke
    ensures Succeeded(res) && SmokeSeen(step, res) ==> r.lines == b.lines + [SmokeLine] && r.smoke
    ensures Succeeded(res) && !SmokeSeen(step, res) ==> r.lines == b.lines && !r.smoke
  {
    var entries := b.entries + [Entry(step, res)];
    if !Succeeded(res) then Batch(entries, b.lines + [FailedLine(res)], false)
    else if SmokeSeen(step, res) then Batch(entries, b.lines + [SmokeLine], true)
    else Batch(entries, b.lines, false)
  }

  /** One more step of a batch that has not ended: step `k` is the task's step `done + k`. */
  lemma RunBatchNext(steps: seq<Fields>, k: nat, done: nat, run: StepRunner, b: Batch)
    requires k < |steps| && RunBatch(steps[..k], done, run) == Ok(b) && !b.smoke
    ensures RunBatch(steps[..k + 1], done, run)
      == match run(done + k, steps[k]) case Err(e) => Err(e) case Ok(res) => Ok(Extend(b, steps[k], res))
  {
    var s := steps[..k + 1];
    assert s[|s| - 1] == steps[k];
    assert s[..|s| - 1] == steps[..k];
  }

  /** Once a prefix raised or showed the smoke test, the later steps never run. */
  lemma {:induction false} RunBatchSettled(steps: seq<Fields>, j: nat, done: nat, run: StepRunner)
    requires j <= |steps|
    requires var p := RunBatch(steps[..j], done, run); p.Err? || p.value.smoke
    ensures RunBatch(steps, done, run) == RunBatch(steps[..j], done, run)
    decreases |steps| - j
  {
    if j < |steps| {
      var next := steps[..j + 1];
      assert next[..j] == steps[..j];
      assert RunBatch(next, done, run) == RunBatch(steps[..j], done, run);
      RunBatchSettled(steps, j + 1, done, run);
    } else {
      assert steps[..j] == steps;
    }
  }

  /** A step that raises, reached before the batch ended, ends the batch with its exception. */
  lemma RunBatchRaises(steps: seq<Fields>, k: nat, done: nat, run: StepRunner, b: Batch, e: string)
    requires k < |steps| && RunBatch(steps[..k], done, run) == Ok(b) && !b.smoke
    requires run(done + k, steps[k]) == Err(e)
    ensures RunBatch(steps, done, run) == Err(e)
  {
    RunBatchNext(steps, k, done, run, b);
    RunBatchSettled(steps, k + 1, done, run);
  }

  /**
    * A step that succeeds with the pygame greeting, reached before the batch
    * ended, is the last one run: the batch stops with `k + 1` entries and the
    * stopping line last.
    */
  lemma RunBatchStopsAtGreeting(steps: seq<Fields>, k: nat, done: nat, run: StepRunner, b: Batch, res: Fields)
    requires k < |steps| && RunBatch(steps[..k], done, run) == Ok(b) && !b.smoke
    requires run(done + k, steps[k]) == Ok(res) && Succeeded(res) && SmokeSeen(steps[k], res)
    ensures var r := RunBatch(steps, done, run);
      r == Ok(Batch(b.entries + [Entry(steps[k], res)], b.lines + [SmokeLine], true))
      && |r.value.entries| == k + 1
  {
    RunBatchNext(steps, k, done, run, b);
    RunBatchSettled(steps, k + 1, done, run);
  }

  /**
    * A step whose result is not ok, reached before the batch ended, logs
    * its `Failed:` line and the batch goes on with the next step.
    */
  lemma RunBatchGoesOnAfterFailure(steps: seq<Fields>, k: nat, done: nat, run: StepRunner, b: Batch, res: Fields)
    requires k < |steps| && RunBatch(steps[..k], done, run) == Ok(b) && !b.smoke
    requires run(done + k, steps[k]) == Ok(res) && !Succeeded(res)
    ensures RunBatch(steps[..k + 1], done, run) == Ok(Batch(b.entries + [Entry(steps[k], res)], b.lines + [FailedLine(res)], false))
  {
    RunBatchNext(steps, k, done, run, b);
  }

  // ---------------------------------------------------------------------
  // Rounds

  /** The loop state of `run_task`. */
  datatype Progress = Progress(transcript: seq<Entry>, summary: seq<string>, lastSig: Option<string>, stagnation: nat)

  const Start := Progress([], [], None, 0)

  /** How a round ends: the next round, `break`, `return`, or an exception. */
  datatype RoundEnd = Next(p: Progress) | Halt(p: Progress) | Return(text: string) | Raise(error: string)

  /** One iteration `i` of the loop in `run_task`: plan, then follow the plan. */
  function Round(goal: string, i: nat, st: Progress, o: Oracles, run: StepRunner): (r: RoundEnd)
    ensures r.Halt? ==> r.p.transcript == st.transcript
    ensures r.Next? ==> |st.transcript| < |r.p.transcript| <= |st.transcript| + MaxPlanSteps
    ensures r.Next? ==> r.p.transcript[..|st.transcript|] == st.transcript && r.p.stagnation == 0
    ensures r.Return? ==> r.text != ""
  {
    match PlanSpec(goal, st.transcript, o)
    case Err(_) => Halt(st)
    case Ok(plan) => Follow(plan, i, st, run)
  }

  /**
    * The rest of a round once the plan is known: the three stopping checks in
    * order, each before any step runs, then the batch.
    */
  function Follow(plan: StepPlan, i: nat, st: Progress, run: StepRunner): (r: RoundEnd)
    ensures r.Halt? ==> r.p.transcript == st.transcript
    ensures r.Halt? ==> |r.p.summary| == |st.summary| + 1
    ensures plan.done ==> r == Halt(st.(summary := st.summary + [GoalLine]))
    ensures !plan.done && plan.steps == [] ==> r == Halt(st.(summary := st.summary + [NoStepsLine(i)]))
    ensures r.Next? ==> |st.transcript| < |r.p.transcript| <= |st.transcript| + |plan.steps|
    ensures r.Next? ==> r.p.transcript[..|st.transcript|] == st.transcript && r.p.stagnation == 0
    ensures r.Next? ==> r.p.lastSig == Some(Signature(plan.steps)) && r.p.lastSig != st.lastSig
    ensures r.Return? ==> r.text != ""
  {
    if plan.done then Halt(st.(summary := st.summary + [GoalLine]))
    else if plan.steps == [] then Halt(st.(summary := st.summary + [NoStepsLine(i)]))
    else
      var sig := Signature(plan.steps);
      var stagnation := if Some(sig) == st.lastSig then st.stagnation + 1 else 0;
      if stagnation >= 1 then Halt(Progress(st.transcript, st.summary + [RepeatLine], Some(sig), stagnation))
      else match RunBatch(plan.steps, |st.transcript|, run)
        case Err(e) => Raise(e)
        case Ok(b) =>
          var next := Progress(st.transcript + b.entries, st.summary + b.lines, Some(sig), stagnation);
          assert next.transcript[..|st.transcript|] == st.transcript;
          if b.smoke then
            SmokeSummaryNonEmpty(st.summary, b, plan.steps);
            Return(Join("\n", next.summary))
          else Next(next)
  }

  /** A summary that ends with a batch stopped at the smoke-test greeting joins to a non-empty text. */
  lemma SmokeSummaryNonEmpty(summary: seq<string>, b: Batch, steps: seq<Fields>)
    requires Settled(b, steps)
    ensures Join("\n", summary + b.lines) != ""
  {
    var all := summary + b.lines;
    var last := b.lines[|b.lines| - 1];
    assert all[|all| - 1] == last;
    assert |last| > 0;
    JoinLastNonEmpty("\n", all);
  }

  /**
    * With the counter at zero, as it is at the start of every round, a plan
    * is taken for a repetition exactly when its signature equals the
    * previous round's.
    */
  lemma RepeatStopsExactly(plan: StepPlan, i: nat, st: Progress, run: StepRunner)
    requires st.stagnation == 0 && !plan.done && plan.steps != []
    ensures var r := Follow(plan, i, st, run);
      (r.Halt? && r.p.summary == st.summary + [RepeatLine]) <==> st.lastSig == Some(Signature(plan.steps))
  {
  }

  /** `"\n".join(summary) or "Task complete (see logs)."`. */
  function Finish(summary: seq<string>): (r: string)
    ensures r != ""
    ensures summary == [] ==> r == NothingDone
    ensures |summary| == 1 && summary[0] != "" ==> r == summary[0]
  {
    var text := Join("\n", summary);
    if text == "" then NothingDone else text
  }

  /** The rounds of the agent with this goal and step runner, as a function of the round number and the state. */
  function Rounds(goal: string, o: Oracles, run: StepRunner): (nat, Progress) -> RoundEnd
  {
    (i: nat, st: Progress) => Round(goal, i, st, o, run)
  }

  /** The rounds `i` to `maxSteps` of `run_task`, from state `st`. */
  function RunFrom(i: nat, maxSteps: int, st: Progress, round: (nat, Progress) -> RoundEnd): (r: Result<string>)
    ensures i > maxSteps ==> r == Ok(Finish(st.summary))
    decreases if i <= maxSteps then maxSteps + 1 - i else 0
  {
    if i > maxSteps then Ok(Finish(st.summary))
    else match round(i, st)
      case Next(p) => RunFrom(i + 1, maxSteps, p, round)
      case Halt(p) => Ok(Finish(p.summary))
      case Return(text) => Ok(text)
      case Raise(e) => Err(e)
  }

  lemma RunFromNext(i: nat, maxSteps: int, st: Progress, round: (nat, Progress) -> RoundEnd, p: Progress)
    requires i <= maxSteps && round(i, st) == Next(p)
    ensures RunFrom(i, maxSteps, st, round) == RunFrom(i + 1, maxSteps, p, round)
  {
  }

  lemma RunFromHalt(i: nat, maxSteps: int, st: Progress, round: (nat, Progress) -> RoundEnd, p: Progress)
    requires i <= maxSteps && round(i, st) == Halt(p)
    ensures RunFrom(i, maxSteps, st, round) == Ok(Finish(p.summary))
  {
  }

  /**
    * `run_task`: rounds 1 to `maxSteps` from an empty transcript and summary,
    * with `run` executing one step (the agent passes `Runner`).
    */
  /** `run_task` as a function of its goal, budget and oracles; its text is never empty. */
  function RunTaskSpec(goal: string, maxSteps: int, o: Oracles, run: StepRunner): (r: Result<string>)
    ensures r.Ok? ==> r.value != ""
  {
    RunFromNonEmpty(1, maxSteps, Start, goal, o, run);
    RunFrom(1, maxSteps, Start, Rounds(goal, o, run))
  }

  /** Whatever round the task ends in, the text it returns is non-empty. */
  lemma {:induction false} RunFromNonEmpty(i: nat, maxSteps: int, st: Progress, goal: string, o: Oracles, run: StepRunner)
    ensures var r := RunFrom(i, maxSteps, st, Rounds(goal, o, run));
      r.Ok? ==> r.value != ""
    decreases if i <= maxSteps then maxSteps + 1 - i else 0
  {
    if i <= maxSteps {
      RoundsApply(goal, o, run, i, st);
      match Round(goal, i, st, o, run)
      case Next(p) =>
        RunFromNonEmpty(i + 1, maxSteps, p, goal, o, run);
      case Halt(p) =>
      case Return(text) =>
      case Raise(e) =>
    }
  }

  lemma RoundOfPlan(goal: string, i: nat, st: Progress, o: Oracles, run: StepRunner, plan: StepPlan)
    requires PlanSpec(goal, st.transcript, o) == Ok(plan)
    ensures Round(goal, i, st, o, run) == Follow(plan, i, st, run)
  {
  }

  lemma RoundsApply(goal: string, o: Oracles, run: StepRunner, i: nat, st: Progress)
    ensures Rounds(goal, o, run)(i, st) == Round(goal, i, st, o, run)
  {
  }

  /** Without any round to run, the task reports the default text. */
  lemma NoBudgetNoRounds(goal: string, maxSteps: int, o: Oracles, run: StepRunner)
    requires maxSteps < 1
    ensures RunTaskSpec(goal, maxSteps, o, run) == Ok(NothingDone)
  {
  }

  /** If the model answers `done` at once, nothing runs and the task ends with one line. */
  lemma DoneAtOnce(goal: string, maxSteps: int, o: Oracles, run: StepRunner, plan: StepPlan)
    requires maxSteps >= 1
    requires PlanSpec(goal, [], o) == Ok(plan) && plan.done
    ensures RunTaskSpec(goal, maxSteps, o, run) == Ok(GoalLine)
  {
    RoundDone(goal, 1, Start, o, run, plan);
    RoundsApply(goal, o, run, 1, Start);
    FirstHaltEnds(maxSteps, Rounds(goal, o, run), GoalLine);
  }

  /** A first round that halts with one non-empty line makes that line the task's result. */
  lemma FirstHaltEnds(maxSteps: int, round: (nat, Progress) -> RoundEnd, line: string)
    requires maxSteps >= 1 && line != ""
    requires round(1, Start) == Halt(Start.(summary := Start.summary + [line]))
    ensures RunFrom(1, maxSteps, Start, round) == Ok(line)
  {
    assert Start.summary + [line] == [line];
    RunFromHalt(1, maxSteps, Start, round, Start.(summary := [line]));
  }

  /** A round whose plan is `done` stops with the goal line, running nothing. */
  lemma RoundDone(goal: string, i: nat, st: Progress, o: Oracles, run: StepRunner, plan: StepPlan)
    requires PlanSpec(goal, st.transcript, o) == Ok(plan) && plan.done
    ensures Round(goal, i, st, o, run) == Halt(st.(summary := st.summary + [GoalLine]))
  {
    RoundOfPlan(goal, i, st, o, run, plan);
  }

  /** A round whose plan has the previous round's signature stops, adding the repetition line and running nothing. */
  lemma RepeatedPlanHalts(goal: string, i: nat, st: Progress, o: Oracles, run: StepRunner, plan: StepPlan)
    requires PlanSpec(goal, st.transcript, o) == Ok(plan) && !plan.done && plan.steps != []
    requires st.lastSig == Some(Signature(plan.steps))
    ensures Round(goal, i, st, o, run)
      == Halt(Progress(st.transcript, st.summary + [RepeatLine], st.lastSig, st.stagnation + 1))
  {
    RoundOfPlan(goal, i, st, o, run, plan);
    FollowRepeat(plan, i, st, run);
  }

  lemma FollowRepeat(plan: StepPlan, i: nat, st: Progress, run: StepRunner)
    requires !plan.done && plan.steps != [] && st.lastSig == Some(Signature(plan.steps))
    ensures Follow(plan, i, st, run)
      == Halt(Progress(st.transcript, st.summary + [RepeatLine], st.lastSig, st.stagnation + 1))
  {
  }

  /** A plan that repeats the previous round's exactly ends the task in the second round. */
  lemma {:induction false} RepeatedPlanEndsTask(goal: string, maxSteps: int, o: Oracles, run: StepRunner, p1: Progress, plan: StepPlan)
    requires maxSteps >= 2
    requires Round(goal, 1, Start, o, run) == Next(p1)
    requires PlanSpec(goal, p1.transcript, o) == Ok(plan) && !plan.done && plan.steps != []
    requires p1.lastSig == Some(Signature(plan.steps))
    ensures RunTaskSpec(goal, maxSteps, o, run) == Ok(Finish(p1.summary + [RepeatLine]))
  {
    var round := Rounds(goal, o, run);
    RoundsApply(goal, o, run, 1, Start);
    RunFromNext(1, maxSteps, Start, round, p1);
    RepeatedPlanHalts(goal, 2, p1, o, run, plan);
    RoundsApply(goal, o, run, 2, p1);
    RunFromHalt(2, maxSteps, p1, round, Progress(p1.transcript, p1.summary + [RepeatLine], p1.lastSig, p1.stagnation + 1));
  }

  // ---------------------------------------------------------------------
  // The agent

  class ActionAgent {
    const workspace: string
    const maxSteps: int
    const timeoutS: int
    /** `_current_goal`, set by `RunTask` and read by the content generator. */
    var currentGoal: Option<string>

    constructor(workspace: string, maxSteps: int, timeoutS: int)
      ensures this.workspace == workspace && this.maxSteps == maxSteps && this.timeoutS == timeoutS
      ensures currentGoal.None?
    {
      this.workspace := workspace;
      this.maxSteps := maxSteps;
      this.timeoutS := timeoutS;
      currentGoal := None;
    }

    /** `plan`: the model calls, then the normalisation loop that builds `clean`. */
    method Plan(goal: string, transcript: seq<Entry>, o: Oracles) returns (r: Result<StepPlan>)
      ensures r == PlanSpec(goal, transcript, o)
    {
      var reply := o.planner(goal, false, Recent(transcript));
      if reply.Err? {
        reply := o.planner(goal, true, Recent(transcript));
        if reply.Err? {
          return Ok(ParseErrorPlan);
        }
      }
      var v := reply.value;
      if !v.JObj? {
        return Err(NoAttribute(v, "get"));
      }
      var raw := RawSteps(Get(v.fields, "steps", JNull));
      if raw.Err? {
        return Err(raw.error);
      }
      var clean: seq<Fields> := [];
      for k := 0 to |raw.value|
        invariant clean == KeepSteps(raw.value[..k])
      {
        assert raw.value[..k + 1][..k] == raw.value[..k];
        var s := raw.value[k];
        if Admissible(s) {
          clean := clean + [s.fields];
        }
      }
      assert raw.value[..|raw.value|] == raw.value;
      r := Ok(StepPlan(clean, Get(v.fields, "reason", JStr("")), Truthy(Get(v.fields, "done", JBool(false)))));
    }

    /** `_rewrite_cmd_for_venv`: the loop that builds `new_segments`. */
    method RewriteCmdForVenv(cmd: string, n: nat, o: Oracles) returns (r: string)
      ensures r == RewriteCmd(cmd, workspace, o.venvPython(n), o.venvPip(n))
    {
      var segments := Segments(cmd);
      var out: seq<string> := [];
      for k := 0 to |segments|
        invariant out == RewriteAll(segments[..k], workspace, o.venvPython(n), o.venvPip(n))
      {
        assert segments[..k + 1][..k] == segments[..k];
        out := out + [RewriteSegment(segments[k], workspace, o.venvPython(n), o.venvPip(n))];
      }
      assert segments[..|segments|] == segments;
      r := Join("; ", out);
    }

    /** The inner loop of `run_task`: run each step, log it, stop at the smoke-test greeting. */
    method ExecuteSteps(steps: seq<Fields>, done: nat, o: Oracles) returns (r: Result<Batch>)
      ensures r == RunBatch(steps, done, Runner(currentGoal, workspace, timeoutS, o))
    {
      var run := Runner(currentGoal, workspace, timeoutS, o);
      var entries: seq<Entry> := [];
      var lines: seq<string> := [];
      for k := 0 to |steps|
        invariant RunBatch(steps[..k], done, run) == Ok(Batch(entries, lines, false))
      {
        var s := steps[k];
        var result := run(done + k, s);
        ghost var b := Batch(entries, lines, false);
        if result.Err? {
          RunBatchRaises(steps, k, done, run, b, result.error);
          return Err(result.error);
        }
        if !Succeeded(result.value) {
          RunBatchGoesOnAfterFailure(steps, k, done, run, b, result.value);
          entries := entries + [Entry(s, result.value)];
          lines := lines + [FailedLine(result.value)];
        } else if SmokeSeen(s, result.value) {
          RunBatchStopsAtGreeting(steps, k, done, run, b, result.value);
          return Ok(Batch(entries + [Entry(s, result.value)], lines + [SmokeLine], true));
        } else {
          RunBatchNext(steps, k, done, run, b);
          entries := entries + [Entry(s, result.value)];
        }
      }
      assert steps[..|steps|] == steps;
      r := Ok(Batch(entries, lines, false));
    }

    /** `run_task`. */
    method RunTask(goal: string, o: Oracles) returns (r: Result<string>)
      modifies this
      ensures currentGoal == Some(goal)
      ensures r == RunTaskSpec(goal, maxSteps, o, Runner(Some(goal), workspace, timeoutS, o))
    {
      currentGoal := Some(goal);
      var transcript: seq<Entry> := [];
      var summary: seq<string> := [];
      var lastSig: Option<string> := None;
      var stagnation: nat := 0;
      var i: nat := 1;
      while i <= maxSteps
        invariant currentGoal == Some(goal)
        invariant stagnation == 0
        invariant RunFrom(i, maxSteps, Progress(transcript, summary, lastSig, stagnation), Rounds(goal, o, Runner(Some(goal), workspace, timeoutS, o)))
          == RunTaskSpec(goal, maxSteps, o, Runner(Some(goal), workspace, timeoutS, o))
        decreases maxSteps + 1 - i
      {
        ghost var st := Progress(transcript, summary, lastSig, stagnation);
        var plan := Plan(goal, transcript, o);
        if plan.Err? {
          return Ok(Finish(summary));
        }
        if plan.value.done {
          summary := summary + [GoalLine];
          return Ok(Finish(summary));
        }
        var steps := plan.value.steps;
        if steps == [] {
          summary := summary + [NoStepsLine(i)];
          return Ok(Finish(summary));
        }
        var sig := Signature(steps);
        if Some(sig) == lastSig {
          stagnation := stagnation + 1;
        } else {
          stagnation := 0;
        }
        lastSig := Some(sig);
        if stagnation >= 1 {
          summary := summary + [RepeatLine];
          return Ok(Finish(summary));
        }
        var batch := ExecuteSteps(steps, |transcript|, o);
        if batch.Err? {
          return Err(batch.error);
        }
        transcript := transcript + batch.value.entries;
        summary := summary + batch.value.lines;
        if batch.value.smoke {
          return Ok(Join("\n", summary));
        }
        ghost var run := Runner(Some(goal), workspace, timeoutS, o);
        ghost var next := Progress(transcript, summary, lastSig, stagnation);
        RoundOfPlan(goal, i, st, o, run, plan.value);
        assert Follow(plan.value, i, st, run) == Next(next);
        RoundsApply(goal, o, run, i, st);
        RunFromNext(i, maxSteps, st, Rounds(goal, o, run), next);
        i := i + 1;
      }
      r := Ok(Finish(summary));
    }
  }
}
