/** Python's int() on strings and str() on integers, as the fine-tuning script
    uses them to read and write environment variables. */
module PyInt {
  import opened Wrappers

  predicate IsDigit(c: char) {
    '0' <= c <= '9'
  }

  predicate AllDigits(s: string) {
    forall i :: 0 <= i < |s| ==> IsDigit(s[i])
  }

  /** The value of a string of decimal digits. */
  function DigitsValue(s: string): nat
    requires AllDigits(s)
  {
    if s == [] then 0 else DigitsValue(s[..|s| - 1]) * 10 + (s[|s| - 1] as int - '0' as int)
  }

  /** int(s): an optional sign followed by at least one decimal digit;
      anything else raises ValueError (None here). */
  function ParseInt(s: string): (r: Option<int>)
    // accepted: one or more digits, optionally after one sign
    ensures r.Some? <==> (|s| >= 1 && AllDigits(s)) || (|s| >= 2 && (s[0] == '-' || s[0] == '+') && AllDigits(s[1..]))
    // the value of the digits, negated after a minus sign
    ensures r.Some? && AllDigits(s) ==> r.value == DigitsValue(s)
    ensures r.Some? && s[0] == '+' ==> r.value == DigitsValue(s[1..])
    ensures r.Some? && s[0] == '-' ==> r.value + DigitsValue(s[1..]) == 0
    ensures r.Some? && r.value < 0 ==> s[0] == '-'
  {
    if |s| >= 2 && (s[0] == '-' || s[0] == '+') && AllDigits(s[1..]) then
      var magnitude: int := DigitsValue(s[1..]);
      Some(if s[0] == '-' then -magnitude else magnitude)
    else if |s| >= 1 && AllDigits(s) then
      Some(DigitsValue(s))
    else
      None
  }

  function DigitChar(d: nat): (c: char)
    requires d < 10
    ensures IsDigit(c)
  {
    ('0' as int + d) as char
  }

  /** The decimal digits of n, without leading zeros. */
  function NatToDigits(n: nat): (s: string)
    ensures |s| >= 1 && AllDigits(s)
  {
    if n < 10 then [DigitChar(n)] else NatToDigits(n / 10) + [DigitChar(n % 10)]
  }

  /** str(n) for an integer n. */
  function IntToString(n: int): (s: string)
    // a minus sign exactly for negative numbers, then decimal digits
    ensures |s| >= 1 && (s[0] == '-' <==> n < 0)
    ensures n >= 0 ==> AllDigits(s)
    ensures n < 0 ==> |s| >= 2 && AllDigits(s[1..])
  {
    if n < 0 then "-" + NatToDigits(-n) else NatToDigits(n)
  }

  lemma {:induction false} DigitsRoundTrip(n: nat)
    ensures DigitsValue(NatToDigits(n)) == n
  {
    if n >= 10 {
      var s := NatToDigits(n);
      assert s[..|s| - 1] == NatToDigits(n / 10);
      DigitsRoundTrip(n / 10);
    }
  }

  /** What str() writes, int() reads back. */
  lemma StrIntRoundTrip(n: int)
    ensures ParseInt(IntToString(n)) == Some(n)
  {
    if n < 0 {
      var s := IntToString(n);
      assert s[1..] == NatToDigits(-n);
      DigitsRoundTrip(-n);
    } else {
      DigitsRoundTrip(n);
    }
  }
}

/** The process environment and `get_int_from_env`
    (alpaca_qlora_finetuning_cpu.py, lines 56-62). */
module EnvInts {
  import opened Wrappers
  import opened PyInt

  /** int() rejected the string `text`. */
  datatype ValueError = ValueError(text: string)

  /** `os.environ`: a mutable mapping from variable names to strings. */
  class Environ {
    var vars: map<string, string>

    constructor (vars: map<string, string>)
      ensures this.vars == vars
    {
      this.vars := vars;
    }
  }

  /** int(s), with ValueError as an error value. */
  function IntArg(s: string): (r: Result<int, ValueError>)
    ensures r.Ok? <==> ParseInt(s).Some?
    ensures r.Ok? ==> r.value == ParseInt(s).value
  {
    match ParseInt(s)
    case Some(v) => Ok(v)
    case None => Err(ValueError(s))
  }

  /** `int(os.environ.get(key, absent))`. */
  function EnvInt(env: map<string, string>, key: string, absent: int): (r: Result<int, ValueError>)
    ensures key !in env ==> r == Ok(absent)
    ensures key in env ==> r == IntArg(env[key])
  {
    if key in env then IntArg(env[key]) else Ok(absent)
  }

  /** A key the lookup passes over: unset, or set to a negative integer. */
  predicate Skipped(env: map<string, string>, key: string) {
    EnvInt(env, key, -1).Ok? && EnvInt(env, key, -1).value < 0
  }

  /** `get_int_from_env(keys, default)` on the environment `env`: the first
      key, in list order, whose value is an integer of at least 0, else
      int(default); a value int() rejects ends the lookup with ValueError. */
  function EnvLookup(env: map<string, string>, keys: seq<string>, default: string): (r: Result<int, ValueError>)
    // a negative result can only be the default's
    ensures r.Ok? && r.value < 0 ==> ParseInt(default) == Some(r.value)
  {
    if keys == [] then IntArg(default)
    else
      match EnvInt(env, keys[0], -1)
      case Err(e) => Err(e)
      case Ok(v) => if v >= 0 then Ok(v) else EnvLookup(env, keys[1..], default)
  }

  /** Skipped keys at the front of the list do not matter. */
  lemma {:induction false} SkippedPrefixIgnored(env: map<string, string>, keys: seq<string>, default: string, i: nat)
    requires i <= |keys|
    requires forall j :: 0 <= j < i ==> Skipped(env, keys[j])
    ensures EnvLookup(env, keys, default) == EnvLookup(env, keys[i..], default)
  {
    if i > 0 {
      assert Skipped(env, keys[0]);
      assert keys[1..][i - 1..] == keys[i..];
      SkippedPrefixIgnored(env, keys[1..], default, i - 1);
    }
  }

  /** The first key whose value is at least 0 gives the result; 0 counts,
      although the docstring speaks of positive values. */
  lemma FirstNonNegativeWins(env: map<string, string>, keys: seq<string>, default: string, i: nat, v: int)
    requires i < |keys|
    requires forall j :: 0 <= j < i ==> Skipped(env, keys[j])
    requires keys[i] in env && ParseInt(env[keys[i]]) == Some(v) && v >= 0
    ensures EnvLookup(env, keys, default) == Ok(v)
  {
    SkippedPrefixIgnored(env, keys, default, i);
  }

  /** When every key is unset or negative, the result is int(default). */
  lemma DefaultWhenAllSkipped(env: map<string, string>, keys: seq<string>, default: string)
    requires forall j :: 0 <= j < |keys| ==> Skipped(env, keys[j])
    ensures EnvLookup(env, keys, default) == IntArg(default)
  {
    SkippedPrefixIgnored(env, keys, default, |keys|);
  }

  /** A value int() rejects, met before any usable one, raises ValueError. */
  lemma UnparsableValueFails(env: map<string, string>, keys: seq<string>, default: string, i: nat)
    requires i < |keys|
    requires forall j :: 0 <= j < i ==> Skipped(env, keys[j])
    requires keys[i] in env && ParseInt(env[keys[i]]).None?
    ensures EnvLookup(env, keys, default) == Err(ValueError(env[keys[i]]))
  {
    SkippedPrefixIgnored(env, keys, default, i);
  }

  /** Lines 56-62: a loop over the keys that returns at the first value of
      at least 0. */
  method GetIntFromEnv(environ: Environ, keys: seq<string>, default: string) returns (r: Result<int, ValueError>)
    ensures r == EnvLookup(environ.vars, keys, default)
  {
    var i := 0;
    while i < |keys|
      invariant 0 <= i <= |keys|
      invariant EnvLookup(environ.vars, keys, default) == EnvLookup(environ.vars, keys[i..], default)
    {
      var e := keys[i];
      var val := -1;
      if e in environ.vars {
        var parsed := ParseInt(environ.vars[e]);
        if parsed.None? {
          return Err(ValueError(environ.vars[e]));
        }
        val := parsed.value;
      }
      if val >= 0 {
        return Ok(val);
      }
      assert keys[i..][1..] == keys[i + 1..];
      i := i + 1;
    }
    r := IntArg(default);
  }
}
