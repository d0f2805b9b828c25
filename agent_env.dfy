/**
 * The two environment-facing pieces of the voice agent's startup:
 * `expand_env_vars`, which substitutes `${NAME}` placeholders in configured
 * header values, and the check that the required API keys are set.
 * The process environment is passed in as a map.
 */
module AgentEnv {
  import opened Wrappers
  import opened Subsequences

  type Env = map<string, string>

  /** A character matched by the regular-expression class `\w` (ASCII letters, digits, `_`). */
  predicate IsWordChar(c: char) {
    ('a' <= c <= 'z') || ('A' <= c <= 'Z') || ('0' <= c <= '9') || c == '_'
  }

  /** A non-empty run of word characters: what `(\w+)` captures. */
  predicate IsWord(s: string) {
    0 < |s| && forall i :: 0 <= i < |s| ==> IsWordChar(s[i])
  }

  /** Length of the longest run of word characters at the start of `s`. */
  function WordRun(s: string): (n: nat)
    ensures n <= |s|
    ensures forall i :: 0 <= i < n ==> IsWordChar(s[i])
    ensures n < |s| ==> !IsWordChar(s[n])
  {
    if s == [] || !IsWordChar(s[0]) then 0 else 1 + WordRun(s[1..])
  }

  /** A `${NAME}` occurrence: the variable name and how many characters it spans. */
  datatype Placeholder = Placeholder(name: string, width: nat)

  /** The placeholder `\$\{(\w+)\}` matched at the very start of `s`, if any. */
  function PlaceholderAt(s: string): (p: Option<Placeholder>)
    ensures p.Some? ==> IsWord(p.value.name) && p.value.width == |p.value.name| + 3
    ensures p.Some? ==> p.value.width <= |s| && s[..p.value.width] == "${" + p.value.name + "}"
  {
    if |s| < 2 || s[0] != '$' || s[1] != '{' then None
    else
      var n := WordRun(s[2..]);
      if 0 < n && 2 + n < |s| && s[2 + n] == '}' then
        assert s[..n + 3] == "${" + s[2..2 + n] + "}";
        Some(Placeholder(s[2..2 + n], n + 3))
      else None
  }

  /** `os.environ.get(name, "")`. */
  function Lookup(env: Env, name: string): string {
    if name in env then env[name] else ""
  }

  /**
   * `re.sub(r"\$\{(\w+)\}", ..., value)`: scanning left to right, each
   * placeholder is replaced by the variable's value, or by "" when it is
   * unset, and scanning resumes after it; all other text is copied.
   */
  function ExpandEnvVars(value: string, env: Env): string
    decreases |value|
  {
    if value == [] then []
    else
      match PlaceholderAt(value)
      case Some(p) => Lookup(env, p.name) + ExpandEnvVars(value[p.width..], env)
      case None => [value[0]] + ExpandEnvVars(value[1..], env)
  }

  /** Whether some position of `s` starts a well-formed `${NAME}`. */
  predicate HasPlaceholder(s: string) {
    exists i :: 0 <= i < |s| && PlaceholderAt(s[i..]).Some?
  }

  // ---------------------------------------------------------------------
  // Properties of the substitution

  /** A value with no well-formed placeholder (malformed ones such as `${}` or `${A-B}` included) is returned unchanged. */
  lemma {:induction false} NoPlaceholderUnchanged(s: string, env: Env)
    requires !HasPlaceholder(s)
    ensures ExpandEnvVars(s, env) == s
    decreases |s|
  {
    if s != [] {
      assert s[0..] == s;
      assert PlaceholderAt(s).None?;
      assert !HasPlaceholder(s[1..]) by {
        forall i | 0 <= i < |s[1..]| ensures PlaceholderAt(s[1..][i..]).None? {
          assert s[1..][i..] == s[i + 1..];
        }
      }
      NoPlaceholderUnchanged(s[1..], env);
    }
  }

  /** A value whose expansion differs from it contains a well-formed placeholder. */
  lemma ChangedImpliesPlaceholder(s: string, env: Env)
    ensures ExpandEnvVars(s, env) != s ==> HasPlaceholder(s)
  {
    if !HasPlaceholder(s) {
      NoPlaceholderUnchanged(s, env);
    }
  }

  /** The malformed forms `${}` and `${A-B}` are not substituted. */
  lemma MalformedFormsKept(env: Env)
    ensures ExpandEnvVars("${}", env) == "${}"
    ensures ExpandEnvVars("${A-B}", env) == "${A-B}"
  {
    var e := "${}";
    forall i | 0 <= i < |e| ensures PlaceholderAt(e[i..]).None? {
      if i == 0 { assert WordRun(e[2..]) == 0; }
    }
    NoPlaceholderUnchanged(e, env);
    var d := "${A-B}";
    forall i | 0 <= i < |d| ensures PlaceholderAt(d[i..]).None? {
      if i == 0 {
        assert d[2..][0] == 'A' && d[2..][1] == '-';
        assert WordRun(d[2..]) == 1;
      }
    }
    NoPlaceholderUnchanged(d, env);
  }

  /** `${NAME}` at the front is replaced by the variable's value, or by "" when it is unset. */
  lemma ExpandPlaceholderFirst(name: string, rest: string, env: Env)
    requires IsWord(name)
    ensures ExpandEnvVars("${" + name + "}" + rest, env) == Lookup(env, name) + ExpandEnvVars(rest, env)
  {
    var s := "${" + name + "}" + rest;
    assert s[2..] == name + "}" + rest;
    assert WordRun(s[2..]) == |name| by {
      var n := WordRun(s[2..]);
      assert s[2..][|name|] == '}';
      assert forall i :: 0 <= i < |name| ==> s[2..][i] == name[i];
    }
    assert s[2 + |name|] == '}';
    assert s[2..2 + |name|] == name;
    assert s[|name| + 3..] == rest;
  }

  /** Text without a `$` is copied as it is, and expansion continues after it. */
  lemma {:induction false} ExpandPlainFirst(t: string, rest: string, env: Env)
    requires forall i :: 0 <= i < |t| ==> t[i] != '$'
    ensures ExpandEnvVars(t + rest, env) == t + ExpandEnvVars(rest, env)
    decreases |t|
  {
    if t != [] {
      var s := t + rest;
      assert s[0] == t[0] && s[1..] == t[1..] + rest;
      ExpandPlainFirst(t[1..], rest, env);
      assert t == [t[0]] + t[1..];
    } else {
      assert t + rest == rest;
    }
  }

  // ---------------------------------------------------------------------
  // Required environment variables

  const RequiredEnvVars: seq<string> := ["OPENAI_API_KEY", "ELEVEN_API_KEY"]

  /** `os.environ.get(v)` is truthy: set and non-empty. */
  predicate IsSet(env: Env, v: string) {
    v in env && env[v] != ""
  }

  /** `[var for var in required if not os.environ.get(var)]`. */
  function MissingVars(required: seq<string>, env: Env): (missing: seq<string>)
    ensures forall v :: v in missing <==> v in required && !IsSet(env, v)
    ensures |missing| <= |required|
  {
    if required == [] then []
    else (if IsSet(env, required[0]) then [] else [required[0]]) + MissingVars(required[1..], env)
  }

  /** The missing names keep the order of the required list, which is the order the message names them in. */
  lemma {:induction false} MissingVarsInOrder(required: seq<string>, env: Env)
    ensures IsSubsequence(MissingVars(required, env), required)
    decreases |required|
  {
    if required == [] {
      EmptySubsequence(required);
    } else {
      var rest := MissingVars(required[1..], env);
      MissingVarsInOrder(required[1..], env);
      assert required == [required[0]] + required[1..];
      if IsSet(env, required[0]) {
        assert MissingVars(required, env) == rest;
        SubsequenceSkipFirst(rest, required[1..], required[0]);
      } else {
        assert MissingVars(required, env) == [required[0]] + rest;
        SubsequenceKeepFirst(rest, required[1..], required[0]);
      }
    }
  }

  function Join(parts: seq<string>, sep: string): string {
    if parts == [] then ""
    else if |parts| == 1 then parts[0]
    else parts[0] + sep + Join(parts[1..], sep)
  }

  /** The text of the `RuntimeError` raised when variables are missing. */
  function MissingMessage(missing: seq<string>): string {
    "Missing required environment variables: " + Join(missing, ", ")
    + ". Please set them before running the agent."
  }

  /** The startup check: it raises, naming every missing variable, unless all required ones are set. */
  function StartupCheck(env: Env): (r: Result<(), string>)
  {
    var missing := MissingVars(RequiredEnvVars, env);
    if missing != [] then Err(MissingMessage(missing)) else Ok(())
  }

  /** The agent starts iff both API keys are set to non-empty values. */
  lemma StartupCheckPasses(env: Env)
    ensures StartupCheck(env).Ok? <==> IsSet(env, "OPENAI_API_KEY") && IsSet(env, "ELEVEN_API_KEY")
  {
    var missing := MissingVars(RequiredEnvVars, env);
    assert "OPENAI_API_KEY" in RequiredEnvVars && "ELEVEN_API_KEY" in RequiredEnvVars;
    if missing != [] {
      assert missing[0] in missing;
    }
  }

  /** When only the second key is missing, the message names exactly it. */
  lemma StartupCheckNamesMissing(env: Env)
    requires IsSet(env, "OPENAI_API_KEY") && !IsSet(env, "ELEVEN_API_KEY")
    ensures StartupCheck(env) == Err(MissingMessage(["ELEVEN_API_KEY"]))
  {
    var req := RequiredEnvVars;
    assert req[0] == "OPENAI_API_KEY" && req[1..] == ["ELEVEN_API_KEY"];
    assert ["ELEVEN_API_KEY"][1..] == [];
    assert MissingVars(req[1..], env) == ["ELEVEN_API_KEY"];
    assert MissingVars(req, env) == ["ELEVEN_API_KEY"];
  }
}
