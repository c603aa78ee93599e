/**
 * The configuration object of the service (lambdas/config.py): dot-notation
 * access to a whitelist of environment variables, the check that the
 * required ones are set, and the normalised Sentry DSN. The process
 * environment is an explicit map instead of `os.getenv`.
 */
module Config {

  import opened Wrappers
  import opened Errors
  import Text

  /** The process environment: variable name to value. */
  type Env = map<string, string>

  /** The two class-level whitelists, REQUIRED_ENV_VARS and OPTIONAL_ENV_VARS. */
  datatype Config = Config(required: seq<string>, optional: seq<string>)

  /** The whitelists as the service ships them. */
  const Default: Config := Config(["CHALLENGE_SECRET", "WORKSPACE"], ["SENTRY_DSN"])

  /** `os.getenv(name)`: the value, or None when unset. */
  function Getenv(env: Env, name: string): Option<string> {
    if name in env then Some(env[name]) else None
  }

  /** `os.getenv(name)` is truthy: the variable is set and not empty. */
  predicate IsSet(env: Env, name: string) {
    name in env && env[name] != ""
  }

  /** `Config.__getattr__(name)`: a whitelisted name reads the environment, any other raises. */
  function GetAttr(cfg: Config, env: Env, name: string): (r: Outcome<Option<string>>)
    ensures r.Ok? <==> name in cfg.required || name in cfg.optional
    ensures r.Ok? ==> (r.value.Some? <==> name in env)
    ensures r.Ok? && r.value.Some? ==> r.value.value == env[name]
    ensures r.Raise? ==> r.exc == Exc(AttributeError, "'" + name + "' not a valid configuration variable")
  {
    if name in cfg.required || name in cfg.optional then Ok(Getenv(env, name))
    else Raise(Exc(AttributeError, "'" + name + "' not a valid configuration variable"))
  }

  /**
   * The whitelist is data: appending a name to the optional variables makes
   * it readable, and leaves every other name as it was.
   */
  lemma WhitelistIsDataDriven(cfg: Config, env: Env, name: string)
    ensures GetAttr(Config(cfg.required, cfg.optional + [name]), env, name) == Ok(Getenv(env, name))
    ensures forall other :: other != name ==>
      GetAttr(Config(cfg.required, cfg.optional + [name]), env, other) == GetAttr(cfg, env, other)
  {
    var extended := Config(cfg.required, cfg.optional + [name]);
    assert name in extended.optional;
    forall other | other != name
      ensures GetAttr(extended, env, other) == GetAttr(cfg, env, other)
    {
      assert other in extended.optional <==> other in cfg.optional;
    }
  }

  /** With the shipped whitelists, a name outside them is refused whatever the environment holds. */
  lemma UnlistedNameRefused(env: Env, name: string)
    requires name !in {"CHALLENGE_SECRET", "WORKSPACE", "SENTRY_DSN"}
    ensures GetAttr(Default, env, name).Raise?
    ensures GetAttr(Default, env, name).exc.message == "'" + name + "' not a valid configuration variable"
  {
  }

  /** `xs` is `ys` with some elements left out, the rest in their order. */
  ghost predicate IsSubsequence<T>(xs: seq<T>, ys: seq<T>)
    decreases ys
  {
    if xs == [] then true
    else if ys == [] then false
    else if xs[0] == ys[0] then IsSubsequence(xs[1..], ys[1..])
    else IsSubsequence(xs, ys[1..])
  }

  /** No element of `s` occurs twice. */
  ghost predicate NoDuplicates<T>(s: seq<T>) {
    forall i, j :: 0 <= i < j < |s| ==> s[i] != s[j]
  }

  /** The comprehension of `check_required_env_vars`: the listed variables that are unset or empty. */
  function MissingVars(vars: seq<string>, env: Env): (r: seq<string>)
    ensures forall v :: v in r <==> v in vars && !IsSet(env, v)
    ensures IsSubsequence(r, vars)
  {
    if vars == [] then []
    else
      var rest := MissingVars(vars[1..], env);
      if !IsSet(env, vars[0]) then
        [vars[0]] + rest
      else
        assert rest == [] || rest[0] != vars[0];
        rest
  }

  /** A subsequence keeps only elements of the sequence it is taken from. */
  lemma {:induction false} SubsequenceMembers<T>(xs: seq<T>, ys: seq<T>)
    requires IsSubsequence(xs, ys)
    ensures forall x :: x in xs ==> x in ys
    decreases ys
  {
    if xs != [] && ys != [] {
      if xs[0] == ys[0] {
        SubsequenceMembers(xs[1..], ys[1..]);
        forall x | x in xs ensures x in ys {
          if x != xs[0] { assert x in xs[1..]; }
        }
      } else {
        SubsequenceMembers(xs, ys[1..]);
      }
    }
  }

  /**
   * In a sequence without duplicates, a subsequence is fixed by its members:
   * two subsequences with the same members are equal.
   */
  lemma {:induction false} SubsequenceUnique<T>(a: seq<T>, b: seq<T>, ys: seq<T>)
    requires NoDuplicates(ys)
    requires IsSubsequence(a, ys) && IsSubsequence(b, ys)
    requires forall x :: x in a <==> x in b
    ensures a == b
    decreases ys
  {
    if ys == [] {
      assert a == [] && b == [];
    } else {
      var y, rest := ys[0], ys[1..];
      assert NoDuplicates(rest) by {
        forall i, j | 0 <= i < j < |rest| ensures rest[i] != rest[j] {
          assert rest[i] == ys[i + 1] && rest[j] == ys[j + 1];
        }
      }
      assert y !in rest by {
        forall i | 0 <= i < |rest| ensures rest[i] != y {
          assert rest[i] == ys[i + 1];
        }
      }
      // `y` heads a subsequence exactly when it is one of its members.
      if a != [] && a[0] == y {
        assert y in b;
        if b == [] || b[0] != y {
          SubsequenceMembers(b, rest);
          assert false;
        }
        SubsequenceMembers(a[1..], rest);
        SubsequenceMembers(b[1..], rest);
        forall x ensures x in a[1..] <==> x in b[1..] {
          assert x in a <==> x == y || x in a[1..];
          assert x in b <==> x == y || x in b[1..];
        }
        SubsequenceUnique(a[1..], b[1..], rest);
        assert a == [y] + a[1..] && b == [y] + b[1..];
      } else {
        assert IsSubsequence(a, rest);
        SubsequenceMembers(a, rest);
        if b != [] && b[0] == y {
          assert false;
        }
        assert IsSubsequence(b, rest);
        SubsequenceUnique(a, b, rest);
      }
    }
  }

  /**
   * The missing variables are listed in whitelist order: any list of exactly
   * the missing variables, in that order, is the one the check builds.
   */
  lemma MissingVarsInOrder(vars: seq<string>, env: Env, xs: seq<string>)
    requires NoDuplicates(vars)
    requires IsSubsequence(xs, vars)
    requires forall v :: v in xs <==> v in vars && !IsSet(env, v)
    ensures xs == MissingVars(vars, env)
  {
    SubsequenceUnique(xs, MissingVars(vars, env), vars);
  }

  /** The prefix of the message `check_required_env_vars` raises. */
  const MissingVarsPrefix: string := "Missing required environment variables: "

  /**
   * `Config.check_required_env_vars`: raises OSError exactly when a required
   * variable is unset or empty, naming the missing ones; otherwise returns.
   */
  function CheckRequiredEnvVars(cfg: Config, env: Env): (r: Outcome<()>)
    ensures r.Ok? <==> forall v :: v in cfg.required ==> IsSet(env, v)
    ensures r.Raise? ==> r.exc.kind == OSError
    ensures r.Raise? ==> r.exc.message == MissingVarsPrefix + Text.Join(MissingVars(cfg.required, env), ", ")
  {
    var missing := MissingVars(cfg.required, env);
    if missing != [] then
      assert missing[0] in missing;
      Raise(Exc(OSError, MissingVarsPrefix + Text.Join(missing, ", ")))
    else
      assert forall v :: v in cfg.required ==> v !in missing;
      Ok(())
  }

  /** When no listed variable is set, all of them are reported, in their order. */
  lemma {:induction false} NothingSetAllMissing(vars: seq<string>, env: Env)
    requires forall v :: v in vars ==> !IsSet(env, v)
    ensures MissingVars(vars, env) == vars
  {
    if vars != [] {
      NothingSetAllMissing(vars[1..], env);
    }
  }

  /** With none of the shipped required variables set, the message names both, in declaration order. */
  lemma NoRequiredVarSet(env: Env)
    requires !IsSet(env, "CHALLENGE_SECRET") && !IsSet(env, "WORKSPACE")
    ensures CheckRequiredEnvVars(Default, env)
      == Raise(Exc(OSError, MissingVarsPrefix + Text.Join(["CHALLENGE_SECRET", "WORKSPACE"], ", ")))
  {
    NothingSetAllMissing(Default.required, env);
  }

  /**
   * `Config.sentry_dsn`: the DSN exactly as set, unless it is unset, empty,
   * or some casing of "none" once surrounding whitespace is stripped.
   */
  function SentryDsn(env: Env): (r: Option<string>)
    ensures r.Some? ==> r == Getenv(env, "SENTRY_DSN")
    ensures r.None? <==> !IsSet(env, "SENTRY_DSN") || Text.SpellsNone(Text.Strip(env["SENTRY_DSN"]))
  {
    var dsn := Getenv(env, "SENTRY_DSN");
    if dsn.Some? && dsn.value != "" then
      Text.LowerIsNone(Text.Strip(dsn.value));
      if Text.Lower(Text.Strip(dsn.value)) != "none" then dsn else None
    else None
  }

  /** "None" has no surrounding whitespace to strip. */
  lemma StripNone()
    ensures Text.Strip("None") == "None"
  {
    assert Text.TrimStart("None") == "None";
  }

  /** " NONE " strips to "NONE". */
  lemma StripSpacedNone()
    ensures Text.Strip(" NONE ") == "NONE"
  {
    assert Text.TrimStart(" NONE ") == "NONE " by {
      assert " NONE "[1..] == "NONE ";
    }
    assert Text.TrimEnd("NONE ") == "NONE" by {
      assert "NONE "[..4] == "NONE";
    }
  }

  /** "", "None" and " NONE " all switch error reporting off. */
  lemma SentryDsnDisabledSpellings(env: Env)
    requires "SENTRY_DSN" in env
    requires env["SENTRY_DSN"] == "" || env["SENTRY_DSN"] == "None" || env["SENTRY_DSN"] == " NONE "
    ensures SentryDsn(env) == None
  {
    var dsn := env["SENTRY_DSN"];
    if dsn == "None" {
      StripNone();
      assert Text.SpellsNone(Text.Strip(dsn));
    } else if dsn == " NONE " {
      StripSpacedNone();
      assert Text.SpellsNone(Text.Strip(dsn));
    }
  }

  /** A DSN of whitespace only is truthy and does not spell "none", so it is kept as it is. */
  lemma BlankSentryDsnKept(env: Env)
    requires IsSet(env, "SENTRY_DSN")
    requires forall i :: 0 <= i < |env["SENTRY_DSN"]| ==> Text.IsSpace(env["SENTRY_DSN"][i])
    ensures SentryDsn(env) == Some(env["SENTRY_DSN"])
  {
    Text.StripAllSpace(env["SENTRY_DSN"]);
  }
}
