/**
  `add_env_arg`: how one command-line option is derived from the name of an
  environment variable, the variable's value and a fallback default.
 */
module EnvArgs {

  import opened Wrappers

  /** Where the effective default of an option comes from: the text of the
      environment variable, or the default the caller supplied (of any type
      `D`; `INTERVAL` supplies the number 10). */
  datatype ArgValue<D> = EnvText(text: string) | Given(value: D)

  /** The three things `add_env_arg` hands to the parser besides help and type. */
  datatype EnvArg<D> = EnvArg(long: string, default: Option<ArgValue<D>>, required: bool)

  predicate IsAsciiUpper(c: char) {
    'A' <= c <= 'Z'
  }

  /** `str.lower` on one character, restricted to ASCII. */
  function LowerChar(c: char): (r: char)
    ensures !IsAsciiUpper(r)
    ensures IsAsciiUpper(c) ==> r as int == c as int + 32
    ensures !IsAsciiUpper(c) ==> r == c
  {
    if IsAsciiUpper(c) then (c as int + 32) as char else c
  }

  /** `s.lower()` for ASCII names. */
  function Lower(s: string): (r: string)
    ensures |r| == |s|
    ensures forall i :: 0 <= i < |s| ==> r[i] == LowerChar(s[i])
  {
    if s == [] then [] else [LowerChar(s[0])] + Lower(s[1..])
  }

  /** `s.replace(from, to)` for one-character `from` and `to`: every
      occurrence is replaced, and nothing else moves. */
  function Replace(s: string, from: char, to: char): (r: string)
    ensures |r| == |s|
    ensures forall i :: 0 <= i < |s| ==> r[i] == if s[i] == from then to else s[i]
  {
    if s == [] then [] else [if s[0] == from then to else s[0]] + Replace(s[1..], from, to)
  }

  /** The long flag: `"--" + env.lower().replace("_", "-")`. */
  function LongFlag(env: string): (r: string)
    ensures |r| == |env| + 2 && r[..2] == "--"
    ensures forall i :: 0 <= i < |env| ==>
              r[i + 2] == if env[i] == '_' then '-' else LowerChar(env[i])
  {
    "--" + Replace(Lower(env), '_', '-')
  }

  /** A long flag holds no `_` and no upper-case letter. */
  lemma LongFlagIsLowerKebab(env: string)
    ensures forall i :: 0 <= i < |LongFlag(env)| ==> LongFlag(env)[i] != '_' && !IsAsciiUpper(LongFlag(env)[i])
  {
  }

  /** Python's `os.environ.get(env) or default`: an unset OR EMPTY variable
      falls through to the supplied default. */
  function EffectiveDefault<D>(environ: Option<string>, default: Option<D>): (r: Option<ArgValue<D>>)
    ensures r.Some? && r.value.EnvText? <==> environ.Some? && environ.value != ""
    ensures r.Some? && r.value.EnvText? ==> environ == Some(r.value.text)
    ensures r.Some? && r.value.Given? ==> default == Some(r.value.value)
    ensures r.None? <==> (environ.None? || environ.value == "") && default.None?
  {
    if environ.Some? && environ.value != "" then Some(EnvText(environ.value))
    else if default.Some? then Some(Given(default.value))
    else None
  }

  /** `add_env_arg(parser, env, default=default)` with `os.environ.get(env)`
      passed in as `environ`: the option the parser is given. */
  function AddEnvArg<D>(env: string, environ: Option<string>, default: Option<D>): (a: EnvArg<D>)
    ensures a.long == LongFlag(env)
    ensures a.default == EffectiveDefault(environ, default)
    ensures a.required <==> a.default.None?
    ensures a.required <==> (environ.None? || environ.value == "") && default.None?
  {
    var eff := EffectiveDefault(environ, default);
    EnvArg(LongFlag(env), eff, eff == None)
  }

  /** `s.lstrip("-")`: every leading `-` dropped. */
  function StripDashes(s: string): (r: string)
    ensures |r| <= |s| && r == s[|s| - |r|..]
    ensures r == [] || r[0] != '-'
    ensures forall i :: 0 <= i < |s| - |r| ==> s[i] == '-'
  {
    if s != [] && s[0] == '-' then StripDashes(s[1..]) else s
  }

  /** The attribute name `argparse` derives from a long flag: all the dashes
      in front dropped, every other `-` turned into `_`. */
  function Dest(long: string): (r: string)
  {
    Replace(StripDashes(long), '-', '_')
  }

  /** Stripping the dashes of a flag leaves the converted name when the name
      does not itself start with `_` or `-`. */
  lemma StripLongFlag(env: string)
    requires env != [] && env[0] != '_' && env[0] != '-'
    ensures StripDashes(LongFlag(env)) == LongFlag(env)[2..]
  {
    var f := LongFlag(env);
    assert f[0] == '-' && f[1] == '-' && f[2] != '-';
    assert f[1..][0] == '-' && f[1..][1..] == f[2..];
    assert StripDashes(f[2..]) == f[2..];
  }

  /** Turning the dashes of the converted name back into `_` gives the
      lowered name, when the name has no `-` of its own. */
  lemma UndashedFlag(env: string)
    requires forall i :: 0 <= i < |env| ==> env[i] != '-'
    ensures Replace(LongFlag(env)[2..], '-', '_') == Lower(env)
  {
    var f := LongFlag(env);
    var t := f[2..];
    var d, l := Replace(t, '-', '_'), Lower(env);
    forall i | 0 <= i < |env|
      ensures d[i] == l[i]
    {
      assert t[i] == f[i + 2];
      if env[i] != '_' {
        assert LowerChar(env[i]) != '-';
      }
    }
  }

  /** The flag built from `env` leads `argparse` to store the option under
      `env.lower()`, which is the attribute `main.py` reads back
      (`args.envoyproxy_url`, `args.homebridge_webhook_url`, ...), for every
      name that has no `-` of its own. */
  lemma DestOfLongFlag(env: string)
    requires env != [] && env[0] != '_'
    requires forall i :: 0 <= i < |env| ==> env[i] != '-'
    ensures Dest(LongFlag(env)) == Lower(env)
  {
    assert env[0] != '-';
    StripLongFlag(env);
    UndashedFlag(env);
  }

  /** A name that starts with `_` gets a third leading dash, which `argparse`
      drops too: `_FOO` is stored under `foo`. */
  lemma LeadingUnderscoreIsDropped()
    ensures Dest(LongFlag("_FOO")) == "foo"
  {
    LongFlagIs("_FOO", "---foo");
    assert StripDashes("---foo") == "foo";
  }

  /** The per-character description of the long flag determines it. */
  lemma LongFlagIs(env: string, flag: string)
    requires |flag| == |env| + 2 && flag[..2] == "--"
    requires forall i :: 0 <= i < |env| ==>
               flag[i + 2] == if env[i] == '_' then '-' else LowerChar(env[i])
    ensures LongFlag(env) == flag
  {
    var r := LongFlag(env);
    forall i | 0 <= i < |flag|
      ensures r[i] == flag[i]
    {
      if i < 2 {
        assert r[..2][i] == flag[..2][i];
      }
    }
  }

  /** The four options `main` declares, with no environment set: the three
      URLs and the accessory id must be given on the command line, while
      `--interval` falls back to 10. */
  lemma IntervalOption()
    ensures AddEnvArg("INTERVAL", None, Some(10)) == EnvArg("--interval", Some(Given(10)), false)
  {
    LongFlagIs("INTERVAL", "--interval");
  }

  lemma EnvoyproxyUrlOption()
    ensures AddEnvArg<int>("ENVOYPROXY_URL", None, None) == EnvArg("--envoyproxy-url", None, true)
  {
    LongFlagIs("ENVOYPROXY_URL", "--envoyproxy-url");
  }

  lemma HomebridgeAccessoryIdOption()
    ensures AddEnvArg<int>("HOMEBRIDGE_ACCESSORY_ID", None, None) == EnvArg("--homebridge-accessory-id", None, true)
  {
    LongFlagIs("HOMEBRIDGE_ACCESSORY_ID", "--homebridge-accessory-id");
  }

  lemma HomebridgeWebhookUrlOption()
    ensures AddEnvArg<int>("HOMEBRIDGE_WEBHOOK_URL", None, None) == EnvArg("--homebridge-webhook-url", None, true)
  {
    WebhookUrlFlag();
  }

  lemma WebhookUrlFlag()
    ensures LongFlag("HOMEBRIDGE_WEBHOOK_URL") == "--homebridge-webhook-url"
  {
    LongFlagIs("HOMEBRIDGE_WEBHOOK_URL", "--homebridge-webhook-url");
  }

  /** An empty variable does not count as set: `INTERVAL=""` still yields 10,
      and `ENVOYPROXY_URL=""` leaves the option required. */
  lemma EmptyVariableIsUnset()
    ensures AddEnvArg("INTERVAL", Some(""), Some(10)).default == Some(Given(10))
    ensures AddEnvArg<int>("ENVOYPROXY_URL", Some(""), None).required
  {
  }

}
