/** envLoader: the `.env` file reader behind the configuration getters.
    The class's static map and flag become the fields of one object; a file
    is its sequence of lines, the file system and the process environment
    are functions. */
module DotEnv {
  import opened Wrappers
  import opened JavaText

  /** What a key and a trimmed value give: one pair of surrounding quotes
      is removed, and a lone `"` (which both starts and ends with a quote)
      is the StringIndexOutOfBoundsException of substring(1, 0). */
  function Unquote(key: string, value: string): (r: Result<Option<(string, string)>>)
    ensures r.Ok? ==> r.value.Some? && r.value.value.0 == key
    ensures r.Err? <==> value == "\""
  {
    if StartsWith(value, "\"") && EndsWith(value, "\"") then
      if |value| < 2 then Err(Runtime("begin 1, end 0, length 1"))
      else Ok(Some((key, value[1..|value| - 1])))
    else Ok(Some((key, value)))
  }

  /** A trimmed line that is neither blank nor a comment, split at its
      first `=` when that is not the first character. */
  function SplitEntry(t: string, eq: int): (r: Result<Option<(string, string)>>)
    requires t != [] && -1 <= eq < |t| && !IsTrimmable(t[0])
    requires eq >= 0 ==> t[eq] == '=' && '=' !in t[..eq]
    ensures r.Ok? && r.value.Some? ==> r.value.value.0 != [] && '=' !in r.value.value.0
  {
    if eq <= 0 then Ok(None)
    else
      var key := Trim(t[..eq]);
      assert key != [] by {
        assert t[0] == t[..eq][0];
        TrimEmptyIff(t[..eq]);
      }
      assert '=' !in key by {
        assert forall c :: c in key ==> c in t[..eq];
      }
      Unquote(key, Trim(t[eq + 1..]))
  }

  /** What one line contributes: nothing (blank, comment, or no `=` after
      the first character), a key and a value, or a failure. */
  function ParseLine(line: string): (r: Result<Option<(string, string)>>)
    ensures TrimEmpty(line) || StartsWith(Trim(line), "#") ==> r == Ok(None)
    ensures r.Ok? && r.value.Some? ==> r.value.value.0 != [] && '=' !in r.value.value.0
  {
    TrimEmptyIff(line);
    var t := Trim(line);
    if t == [] || StartsWith(t, "#") then Ok(None) else SplitEntry(t, IndexOf(t, '='))
  }

  /** A trimmed line that does not start with `#` is split at its first
      `=`. */
  lemma ParseUncommented(t: string)
    requires t != [] && !IsTrimmable(t[0]) && !IsTrimmable(t[|t| - 1]) && t[0] != '#'
    ensures ParseLine(t) == SplitEntry(t, IndexOf(t, '='))
  {
    TrimUntrimmed(t);
    assert t[..1][0] == t[0];
    assert !StartsWith(t, "#");
  }

  /** A key that is written as is: non-empty, trimmed, not a comment and
      free of `=`. */
  predicate PlainKey(k: string) {
    k != [] && !IsTrimmable(k[0]) && !IsTrimmable(k[|k| - 1]) && k[0] != '#' && '=' !in k
  }

  /** A value that is read back as is: trimmed and not wrapped in quotes. */
  predicate PlainValue(v: string) {
    (v == [] || (!IsTrimmable(v[0]) && !IsTrimmable(v[|v| - 1])))
    && !(StartsWith(v, "\"") && EndsWith(v, "\""))
  }

  /** Splitting at the first `=`: the key part of `key=rest`. */
  lemma SplitAtFirstEquals(k: string, rest: string)
    requires '=' !in k
    ensures IndexOf(k + "=" + rest, '=') == |k|
  {
    var l := k + "=" + rest;
    assert l[|k|] == '=';
    assert forall j :: 0 <= j < |k| ==> l[j] == k[j];
    IndexOfAt(l, '=', |k|);
  }

  /** The pieces of the line `key=rest`. */
  lemma EntryLineShape(k: string, rest: string)
    requires PlainKey(k) && (rest == [] || !IsTrimmable(rest[|rest| - 1]))
    ensures var l := k + "=" + rest;
      && l != [] && !IsTrimmable(l[0]) && !IsTrimmable(l[|l| - 1]) && l[0] != '#'
      && IndexOf(l, '=') == |k| && l[..|k|] == k && l[|k| + 1..] == rest
  {
    var l := k + "=" + rest;
    SplitAtFirstEquals(k, rest);
    assert l[0] == k[0] && l[|l| - 1] == (if rest == [] then '=' else rest[|rest| - 1]);
    assert l[..|k|] == k && l[|k| + 1..] == rest;
  }

  /** A line `key=rest` with a plain key is that key with the trimmed
      rest, unquoted. */
  lemma EntryLine(k: string, rest: string)
    requires PlainKey(k) && (rest == [] || !IsTrimmable(rest[|rest| - 1]))
    ensures ParseLine(k + "=" + rest) == Unquote(k, Trim(rest))
  {
    var l := k + "=" + rest;
    EntryLineShape(k, rest);
    ParseUncommented(l);
    TrimUntrimmed(k);
    assert SplitEntry(l, |k|) == Unquote(Trim(k), Trim(rest));
  }

  /** `key=value` is read back as that key and value. */
  lemma ParsePlainLine(k: string, v: string)
    requires PlainKey(k) && PlainValue(v)
    ensures ParseLine(k + "=" + v) == Ok(Some((k, v)))
  {
    EntryLine(k, v);
    TrimUntrimmed(v);
  }

  lemma Quoted(v: string)
    ensures StartsWith("\"" + v + "\"", "\"") && EndsWith("\"" + v + "\"", "\"")
    ensures ("\"" + v + "\"")[1..|v| + 1] == v
  {
    var q := "\"" + v + "\"";
    assert q[..1] == [q[0]];
    assert q[|q| - 1..] == [q[|q| - 1]];
  }

  /** `key="value"` is read back as that key and exactly the value between
      the quotes, whatever it holds. */
  lemma ParseQuotedLine(k: string, v: string)
    requires PlainKey(k)
    ensures ParseLine(k + "=" + ("\"" + v + "\"")) == Ok(Some((k, v)))
  {
    var q := "\"" + v + "\"";
    assert q[0] == '"' && q[|q| - 1] == '"';
    EntryLine(k, q);
    assert Trim(q) == q by {
      TrimUntrimmed(q);
    }
    assert Unquote(k, q) == Ok(Some((k, v))) by {
      Quoted(v);
    }
  }

  /** A lone quote as the value is the one line that fails. */
  lemma ParseLoneQuote(k: string)
    requires PlainKey(k)
    ensures ParseLine(k + "=" + "\"").Err?
  {
    EntryLine(k, "\"");
    TrimUntrimmed("\"");
  }

  /** What each line of a file contributes under a line parser. */
  function Parsed(lines: seq<string>, parse: string -> Result<Option<(string, string)>>)
    : (r: seq<Result<Option<(string, string)>>>)
    ensures |r| == |lines|
    ensures forall i :: 0 <= i < |lines| ==> r[i] == parse(lines[i])
  {
    seq(|lines|, i requires 0 <= i < |lines| => parse(lines[i]))
  }

  /** The map after the first n entries of a file, with the failure that
      stopped the read if there was one. */
  function Load(vars: map<string, string>, es: seq<Result<Option<(string, string)>>>, n: nat)
    : (r: (map<string, string>, Option<Failure>))
    requires n <= |es|
  {
    if n == 0 then (vars, None)
    else
      var prev := Load(vars, es, n - 1);
      if prev.1.Some? then prev
      else
        match es[n - 1]
        case Err(e) => (prev.0, Some(e))
        case Ok(None) => prev
        case Ok(Some(kv)) => (prev.0[kv.0 := kv.1], None)
  }

  /** The value the last of the first n entries that sets a key gives it. */
  function LastValue(es: seq<Result<Option<(string, string)>>>, key: string, n: nat): Option<string>
    requires n <= |es|
  {
    if n == 0 then None
    else if es[n - 1].Ok? && es[n - 1].value.Some? && es[n - 1].value.value.0 == key then
      Some(es[n - 1].value.value.1)
    else LastValue(es, key, n - 1)
  }

  /** When every line reads, a key ends up with the value of the last line
      that sets it; keys no line sets keep their earlier value. */
  lemma {:induction false} LastLineWins(vars: map<string, string>, es: seq<Result<Option<(string, string)>>>,
                                        n: nat, key: string)
    requires n <= |es| && Load(vars, es, n).1.None?
    ensures LastValue(es, key, n).Some? ==>
      key in Load(vars, es, n).0 && Load(vars, es, n).0[key] == LastValue(es, key, n).value
    ensures LastValue(es, key, n).None? ==>
      (key in Load(vars, es, n).0 <==> key in vars)
      && (key in vars ==> Load(vars, es, n).0[key] == vars[key])
  {
    if n > 0 {
      LastLineWins(vars, es, n - 1, key);
    }
  }

  /** Reading one more entry after a clean prefix. */
  lemma LoadStep(vars: map<string, string>, es: seq<Result<Option<(string, string)>>>, i: nat)
    requires i < |es| && Load(vars, es, i).1.None?
    ensures es[i].Err? ==> Load(vars, es, i + 1) == (Load(vars, es, i).0, Some(es[i].error))
    ensures es[i] == Ok(None) ==> Load(vars, es, i + 1) == Load(vars, es, i)
    ensures es[i].Ok? && es[i].value.Some? ==>
      Load(vars, es, i + 1) == (Load(vars, es, i).0[es[i].value.value.0 := es[i].value.value.1], None)
  {
  }

  /** A failed line decides the outcome of every longer prefix. */
  lemma {:induction false} LoadFailureStays(vars: map<string, string>, es: seq<Result<Option<(string, string)>>>,
                                            i: nat, n: nat)
    requires 0 < i <= n <= |es| && Load(vars, es, i).1.Some?
    ensures Load(vars, es, n) == Load(vars, es, i)
  {
    if n > i {
      LoadFailureStays(vars, es, i, n - 1);
    }
  }

  /** The candidate locations, in the order they are tried. */
  function Candidates(userDir: string, userHome: string): (r: seq<string>)
    ensures |r| == 4 && r[0] == ".env" && r[2] == "/etc/myapp/.env"
  {
    [".env", userDir + "/.env", "/etc/myapp/.env", userHome + "/.env"]
  }

  /** The first path among the first n that opens. */
  function FirstOpen(paths: seq<string>, fs: string -> Option<seq<string>>, n: nat): (r: Option<nat>)
    requires n <= |paths|
    ensures r.Some? ==> r.value < n && fs(paths[r.value]).Some?
    ensures r.Some? ==> forall j :: 0 <= j < r.value ==> fs(paths[j]).None?
    ensures r.None? ==> forall j :: 0 <= j < n ==> fs(paths[j]).None?
  {
    if n == 0 then None
    else
      var p := FirstOpen(paths, fs, n - 1);
      if p.Some? then p else if fs(paths[n - 1]).Some? then Some(n - 1) else None
  }

  class EnvLoader {
    var envVars: map<string, string>
    var loaded: bool

    constructor ()
      ensures envVars == map[] && !loaded
    {
      envVars := map[];
      loaded := false;
    }

    /** loadFromReader: every line in turn; `loaded` is set only once the
        last line has been read. */
    method LoadFromReader(lines: seq<string>) returns (err: Option<Failure>)
      modifies this
      ensures (envVars, err) == Load(old(envVars), Parsed(lines, ParseLine), |lines|)
      ensures loaded == (old(loaded) || err.None?)
    {
      err := ReadLines(lines, ParseLine);
    }

    /** The reading loop of loadFromReader, for a line parser given as a
        value so that the loop's proof does not depend on how a line is
        parsed. */
    method ReadLines(lines: seq<string>, parse: string -> Result<Option<(string, string)>>)
      returns (err: Option<Failure>)
      modifies this
      ensures (envVars, err) == Load(old(envVars), Parsed(lines, parse), |lines|)
      ensures loaded == (old(loaded) || err.None?)
    {
      ghost var es := Parsed(lines, parse);
      var i := 0;
      while i < |lines|
        invariant 0 <= i <= |lines|
        invariant Load(old(envVars), es, i) == (envVars, None)
        invariant loaded == old(loaded)
      {
        var entry := parse(lines[i]);
        LoadStep(old(envVars), es, i);
        if entry.Err? {
          LoadFailureStays(old(envVars), es, i + 1, |lines|);
          return Some(entry.error);
        }
        if entry.value.Some? {
          envVars := envVars[entry.value.value.0 := entry.value.value.1];
        }
        i := i + 1;
      }
      loaded := true;
      return None;
    }

    /** loadEnvFile: nothing once loaded; otherwise the first candidate that
        opens is read and the rest are not tried. */
    method LoadEnvFile(userDir: string, userHome: string, fs: string -> Option<seq<string>>)
      returns (used: Option<string>, err: Option<Failure>)
      modifies this
      ensures old(loaded) ==> used.None? && err.None? && envVars == old(envVars) && loaded
      ensures !old(loaded) ==>
        var paths := Candidates(userDir, userHome);
        var first := FirstOpen(paths, fs, |paths|);
        && (first.None? ==> used.None? && err.None? && envVars == old(envVars) && !loaded)
        && (first.Some? ==> && used == Some(paths[first.value])
                            && (envVars, err) == Load(old(envVars), Parsed(fs(paths[first.value]).value, ParseLine), |fs(paths[first.value]).value|)
                            && loaded == err.None?)
    {
      if loaded {
        return None, None;
      }
      var paths := Candidates(userDir, userHome);
      var i := 0;
      while i < |paths|
        invariant 0 <= i <= |paths|
        invariant FirstOpen(paths, fs, i).None?
        invariant envVars == old(envVars) && !loaded
      {
        var file := fs(paths[i]);
        if file.Some? {
          assert FirstOpen(paths, fs, i + 1) == Some(i);
          FirstOpenStays(paths, fs, i, |paths|);
          err := LoadFromReader(file.value);
          return Some(paths[i]), err;
        }
        i := i + 1;
      }
      return None, None;
    }

    /** get(key): the process environment first, then the file. */
    function Get(sysEnv: string -> Option<string>, key: string): (r: Option<string>)
      reads this
      ensures sysEnv(key).Some? ==> r == sysEnv(key)
      ensures sysEnv(key).None? ==> (r.Some? <==> key in envVars)
      ensures sysEnv(key).None? && r.Some? ==> r.value == envVars[key]
    {
      if sysEnv(key).Some? then sysEnv(key)
      else if key in envVars then Some(envVars[key]) else None
    }

    /** get(key, default). */
    function GetOr(sysEnv: string -> Option<string>, key: string, default: string): (r: string)
      reads this
      ensures Get(sysEnv, key).Some? ==> r == Get(sysEnv, key).value
      ensures sysEnv(key).None? && key !in envVars ==> r == default
    {
      Get(sysEnv, key).GetOr(default)
    }

    /** getRequired: a missing or blank value is a RuntimeException. */
    function GetRequired(sysEnv: string -> Option<string>, key: string): (r: Result<string>)
      reads this
      ensures r.Ok? <==> Get(sysEnv, key).Some? && !TrimEmpty(Get(sysEnv, key).value)
      ensures r.Ok? ==> r.value == Get(sysEnv, key).value
      ensures r.Err? ==> r.error == Runtime("Required environment variable '" + key + "' is not set")
    {
      var v := Get(sysEnv, key);
      if v.None? || TrimEmpty(v.value) then Err(Runtime("Required environment variable '" + key + "' is not set"))
      else Ok(v.value)
    }

    /** getInt: the parsed value, or the default when the value is missing
        or is not an int. */
    function GetInt(sysEnv: string -> Option<string>, key: string, default: int): (r: int)
      reads this
      ensures Get(sysEnv, key).None? ==> r == default
      ensures Get(sysEnv, key).Some? && ParseInt(Get(sysEnv, key).value).None? ==> r == default
      ensures Get(sysEnv, key).Some? && ParseInt(Get(sysEnv, key).value).Some? ==>
        r == ParseInt(Get(sysEnv, key).value).value
    {
      var v := Get(sysEnv, key);
      if v.Some? && ParseInt(v.value).Some? then ParseInt(v.value).value else default
    }

    /** getRequiredInt: getRequired, then a RuntimeException for a value
        that is not an int. */
    function GetRequiredInt(sysEnv: string -> Option<string>, key: string): (r: Result<int>)
      reads this
      ensures GetRequired(sysEnv, key).Err? ==> r == Err(GetRequired(sysEnv, key).error)
      ensures r.Ok? ==> GetRequired(sysEnv, key).Ok? && ParseInt(GetRequired(sysEnv, key).value) == Some(r.value)
    {
      match GetRequired(sysEnv, key)
      case Err(e) => Err(e)
      case Ok(v) =>
        match ParseInt(v)
        case None => Err(Runtime("Environment variable '" + key + "' must be a valid integer"))
        case Some(n) => Ok(n)
    }

    /** getBoolean: Boolean.parseBoolean of a present value, the default
        otherwise. */
    function GetBoolean(sysEnv: string -> Option<string>, key: string, default: bool): (r: bool)
      reads this
      ensures Get(sysEnv, key).None? ==> r == default
      ensures Get(sysEnv, key).Some? ==> (r <==> EqualsIgnoreCase(Get(sysEnv, key).value, "true"))
    {
      var v := Get(sysEnv, key);
      if v.Some? then EqualsIgnoreCase(v.value, "true") else default
    }

    /** An int written by Integer.toString is read back by getInt. */
    lemma GetIntRoundTrip(sysEnv: string -> Option<string>, key: string, n: int, default: int)
      requires INT_MIN <= n <= INT_MAX
      requires Get(sysEnv, key) == Some(IntToString(n))
      ensures GetInt(sysEnv, key, default) == n
    {
      ParseIntToString(n);
    }

    /** A value set by the file is what get returns unless the process
        environment has the key. */
    lemma FileValueVisible(sysEnv: string -> Option<string>, k: string, v: string)
      requires sysEnv(k).None? && k in envVars && envVars[k] == v
      ensures GetOr(sysEnv, k, "") == v
      ensures !TrimEmpty(v) ==> GetRequired(sysEnv, k) == Ok(v)
    {
    }
  }

  /** The first path that opens stays the first one. */
  lemma {:induction false} FirstOpenStays(paths: seq<string>, fs: string -> Option<seq<string>>, i: nat, n: nat)
    requires i < n <= |paths| && FirstOpen(paths, fs, i + 1) == Some(i)
    ensures FirstOpen(paths, fs, n) == Some(i)
  {
    if n > i + 1 {
      FirstOpenStays(paths, fs, i, n - 1);
    }
  }
}
