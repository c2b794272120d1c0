/**
 Exec strings and the environment list of shared/process-util.c.
 */
module ExecString {
  import opened Wrappers
  import opened Numbers
  import opened Seqs

  // ---- the environment list --------------------------------------------------------

  /** custom_env_get_env_var: the first entry that starts with name and an equals sign. */
  function FindVar(env: seq<string>, name: string): (r: Option<nat>)
    ensures r.Some? ==> r.value < |env| && name + "=" <= env[r.value]
    ensures r.Some? ==> forall i :: 0 <= i < r.value ==> !(name + "=" <= env[i])
    ensures r.None? ==> forall i :: 0 <= i < |env| ==> !(name + "=" <= env[i])
  {
    if env == [] then None
    else if name + "=" <= env[0] then Some(0)
    else match FindVar(env[1..], name)
      case None => None
      case Some(i) => Some(i + 1)
  }

  function SetVar(env: seq<string>, name: string, value: string): seq<string> {
    match FindVar(env, name)
    case Some(i) => env[i := name + "=" + value]
    case None => env + [name + "=" + value]
  }

  /** What a process reading the list finds: the value of the first match. */
  function Lookup(env: seq<string>, name: string): Option<string> {
    match FindVar(env, name)
    case None => None
    case Some(i) => Some(env[i][|name| + 1..])
  }

  lemma OneNameFits(name: string, value: string, x: string)
    requires '=' !in name && '=' !in x
    ensures x + "=" <= name + "=" + value <==> x == name
  {
    var entry := name + "=" + value;
    if x + "=" <= entry {
      assert entry[|x|] == '=' && entry[..|x|] == x;
      forall i | 0 <= i < |name| ensures entry[i] != '=' {
        assert entry[i] == name[i] && name[i] in name;
      }
      forall i | 0 <= i < |x| ensures entry[i] != '=' {
        assert entry[i] == x[i] && x[i] in x;
      }
      assert entry[|name|] == '=' && entry[..|name|] == name;
    }
  }

  lemma {:induction false} FindSkips(env: seq<string>, name: string, i: nat)
    requires i < |env| && name + "=" <= env[i]
    requires forall j :: 0 <= j < i ==> !(name + "=" <= env[j])
    ensures FindVar(env, name) == Some(i)
  {
    if i > 0 {
      FindSkips(env[1..], name, i - 1);
    }
  }

  /** Entries that agree on which of them match a name are found at the same place. */
  lemma SameMatches(env: seq<string>, env': seq<string>, x: string)
    requires |env| <= |env'|
    requires forall i :: 0 <= i < |env'| ==>
               (x + "=" <= env'[i] <==> i < |env| && x + "=" <= env[i])
    ensures FindVar(env', x) == FindVar(env, x)
  {
    match FindVar(env, x)
    case Some(i) => FindSkips(env', x, i);
    case None =>
  }

  /** Setting a variable changes what is found under its own name and under no other. */
  lemma SetThenLookup(env: seq<string>, name: string, value: string, x: string)
    requires '=' !in name && '=' !in x
    ensures Lookup(SetVar(env, name, value), x) == if x == name then Some(value) else Lookup(env, x)
  {
    var env' := SetVar(env, name, value);
    OneNameFits(name, value, x);
    var at := if FindVar(env, name).Some? then FindVar(env, name).value else |env|;
    if x == name {
      FindSkips(env', x, at);
      assert (name + "=" + value)[|name| + 1..] == value;
    } else {
      if at < |env| {
        var tail := env[at][|name| + 1..];
        assert env[at] == name + "=" + tail;
        OneNameFits(name, tail, x);
      }
      SameMatches(env, env', x);
    }
  }

  /**
   Setting a variable touches one entry: the first that has the name is replaced
   where it stands, and without one the new entry comes last.
   */
  lemma SetTouchesOneEntry(env: seq<string>, name: string, value: string)
    ensures var env' := SetVar(env, name, value);
            && (forall i :: 0 <= i < |env| && name + "=" <= env[i]
                            && (forall j :: 0 <= j < i ==> !(name + "=" <= env[j])) ==>
                  env' == env[i := name + "=" + value])
            && ((forall i :: 0 <= i < |env| ==> !(name + "=" <= env[i])) ==> env' == env + [name + "=" + value])
  {
    forall i | 0 <= i < |env| && name + "=" <= env[i] && forall j :: 0 <= j < i ==> !(name + "=" <= env[j])
      ensures FindVar(env, name) == Some(i)
    {
      FindSkips(env, name, i);
    }
  }

  // ---- words --------------------------------------------------------------------------

  /** The end of the word that starts at p: the next space, or the end of the text. */
  function WordEnd(s: string, p: nat): (e: nat)
    requires p <= |s|
    ensures p <= e <= |s| && (e < |s| ==> IsSpace(s[e]))
    ensures forall i :: p <= i < e ==> !IsSpace(s[i])
    decreases |s| - p
  {
    if p == |s| || IsSpace(s[p]) then p else WordEnd(s, p + 1)
  }

  /** The first position from p on that is not a space. */
  function AfterSpaces(s: string, p: nat): (e: nat)
    requires p <= |s|
    ensures p <= e <= |s| && (e < |s| ==> !IsSpace(s[e]))
    ensures forall i :: p <= i < e ==> IsSpace(s[i])
    decreases |s| - p
  {
    if p == |s| || !IsSpace(s[p]) then p else AfterSpaces(s, p + 1)
  }

  function WordAt(s: string, p: nat): string
    requires p <= |s|
  {
    s[p..WordEnd(s, p)]
  }

  function NextWord(s: string, p: nat): (e: nat)
    requires p <= |s|
    ensures WordEnd(s, p) <= e <= |s|
  {
    AfterSpaces(s, WordEnd(s, p))
  }

  /** The words of a text from p on; where a space comes first there are none. */
  function Words(s: string, p: nat): seq<string>
    requires p <= |s|
    decreases |s| - p
  {
    if WordEnd(s, p) == p then [] else [WordAt(s, p)] + Words(s, NextWord(s, p))
  }

  function EqualsAt(w: string): (r: Option<nat>)
    ensures r.Some? ==> r.value < |w| && w[r.value] == '=' && '=' !in w[..r.value]
    ensures r.None? ==> '=' !in w
  {
    if w == [] then None
    else if w[0] == '=' then Some(0)
    else match EqualsAt(w[1..])
      case None => None
      case Some(i) =>
        assert w[..i + 1] == [w[0]] + w[1..][..i];
        Some(i + 1)
  }

  datatype Env = Env(envp: seq<string>, argp: seq<string>)

  /** Leading words with an equals sign set variables; the first other word and all after it are arguments. */
  function AddWords(words: seq<string>, e: Env): Env
    decreases words
  {
    if words == [] then e
    else match EqualsAt(words[0])
      case Some(i) => AddWords(words[1..], e.(envp := SetVar(e.envp, words[0][..i], words[0][i + 1..])))
      case None => e.(argp := e.argp + words)
  }

  // ---- the parser in place ---------------------------------------------------------------

  ghost predicate NoNul(s: string) { forall i :: 0 <= i < |s| ==> s[i] != '\0' }

  /** The buffer was filled with a C string, and from p on it still holds it, terminator included. */
  ghost predicate Untouched(buf: array<char>, s: string, p: nat)
    reads buf
  {
    && NoNul(s) && p <= |s| && buf.Length == |s| + 1 && buf[|s|] == '\0'
    && forall i :: p <= i < |s| ==> buf[i] == s[i]
  }

  /** Walk over the rest of a word. */
  method SkipWord(buf: array<char>, ghost s: string, start: nat) returns (p: nat)
    requires Untouched(buf, s, start)
    ensures p == WordEnd(s, start)
  {
    p := start;
    while buf[p] != '\0' && !IsSpace(buf[p])
      invariant start <= p <= |s| && WordEnd(s, p) == WordEnd(s, start)
      decreases |s| - p
    {
      p := p + 1;
    }
  }

  /** Overwrite the spaces after a word with NULs. */
  method NulSpaces(buf: array<char>, ghost s: string, start: nat) returns (p: nat)
    requires Untouched(buf, s, start) && (start < |s| ==> IsSpace(s[start]))
    modifies buf
    ensures p == AfterSpaces(s, start) && Untouched(buf, s, p)
    ensures forall i :: 0 <= i < start ==> buf[i] == old(buf[i])
    ensures buf[start] == '\0'
  {
    p := start;
    while buf[p] != '\0' && IsSpace(buf[p])
      invariant start <= p && Untouched(buf, s, p) && AfterSpaces(s, p) == AfterSpaces(s, start)
      invariant forall i :: 0 <= i < start ==> buf[i] == old(buf[i])
      invariant p > start ==> buf[start] == '\0'
      decreases |s| - p
    {
      buf[p] := '\0';
      p := p + 1;
    }
  }

  /** Look for an equals sign in the word at start, and end the key there. */
  method SplitKey(buf: array<char>, ghost s: string, start: nat) returns (v: Option<nat>)
    requires Untouched(buf, s, start)
    modifies buf
    ensures match EqualsAt(WordAt(s, start))
            case None => v == None && Untouched(buf, s, start)
            case Some(i) =>
              && v == Some(start + i + 1) && Untouched(buf, s, start + i + 1)
              && (forall k :: start <= k < start + i ==> buf[k] == s[k]) && buf[start + i] == '\0'
  {
    var p := start;
    ghost var w := WordAt(s, start);
    while buf[p] != '\0' && !IsSpace(buf[p])
      invariant start <= p <= |s| && Untouched(buf, s, start) && WordEnd(s, p) == WordEnd(s, start)
      invariant forall k :: start <= k < p ==> s[k] != '='
      decreases |s| - p
    {
      if buf[p] == '=' {
        FirstEquals(w, p - start);
        buf[p] := '\0';
        return Some(p + 1);
      }
      p := p + 1;
    }
    NoEquals(w);
    v := None;
  }

  lemma {:induction false} FirstEquals(w: string, i: nat)
    requires i < |w| && w[i] == '=' && forall k :: 0 <= k < i ==> w[k] != '='
    ensures EqualsAt(w) == Some(i)
  {
    if i > 0 {
      FirstEquals(w[1..], i - 1);
    }
  }

  lemma NoEquals(w: string)
    requires forall k :: 0 <= k < |w| ==> w[k] != '='
    ensures EqualsAt(w) == None
  {
  }

  /** The C string at a position of a buffer ends at the first NUL. */
  lemma CStringAt(buf: seq<char>, from: nat, text: string)
    requires from + |text| < |buf| && buf[from + |text|] == '\0' && NoNul(text)
    requires forall i :: 0 <= i < |text| ==> buf[from + i] == text[i]
    ensures CString(buf[from..]) == text
  {
    var tail := buf[from + |text| + 1..];
    assert buf[from..] == text + ['\0'] + tail;
    CStringOf(text, tail);
  }

  lemma {:induction false} WordEndWithin(s: string, p: nat, q: nat)
    requires p <= q <= |s| && q <= WordEnd(s, p)
    ensures WordEnd(s, q) == WordEnd(s, p)
    decreases q - p
  {
    if p < q {
      WordEndWithin(s, p + 1, q);
    }
  }

  class CustomEnv {
    var envp: seq<string>
    var argp: seq<string>

    ghost function Value(): Env
      reads this
    {
      Env(envp, argp)
    }

    method SetEnvVar(name: string, value: string)
      requires '=' !in name
      modifies this`envp
      ensures envp == SetVar(old(envp), name, value)
    {
      var at := 0;
      while at < |envp| && !(name + "=" <= envp[at])
        invariant at <= |envp| && forall i :: 0 <= i < at ==> !(name + "=" <= envp[i])
      {
        at := at + 1;
      }
      if at < |envp| {
        FindSkips(envp, name, at);
        envp := envp[at := name + "=" + value];
      } else {
        envp := envp + [name + "=" + value];
      }
    }

    method AddArg(arg: string)
      modifies this`argp
      ensures argp == old(argp) + [arg]
    {
      argp := argp + [arg];
    }

    /** One turn of the environment loop; nothing is taken when the word at start is not an assignment. */
    method TakeAssignment(buf: array<char>, ghost s: string, start: nat) returns (next: Option<nat>)
      requires Untouched(buf, s, start)
      modifies this`envp, buf
      ensures match EqualsAt(WordAt(s, start))
              case None => next == None && envp == old(envp) && Untouched(buf, s, start)
              case Some(i) =>
                && next == Some(NextWord(s, start)) && Untouched(buf, s, next.value)
                && envp == SetVar(old(envp), WordAt(s, start)[..i], WordAt(s, start)[i + 1..])
    {
      var v := SplitKey(buf, s, start);
      if v == None {
        return None;
      }
      var after := EndValue(buf, s, start, v.value);
      SetEnvVar(CString(buf[start..]), CString(buf[v.value..]));
      next := Some(after);
    }

    /** Skip to the end of the value and end it there; key and value can then be read as C strings. */
    method EndValue(buf: array<char>, ghost s: string, start: nat, v: nat) returns (after: nat)
      requires start < v && Untouched(buf, s, v) && EqualsAt(WordAt(s, start)) == Some(v - start - 1)
      requires (forall k :: start <= k < v - 1 ==> buf[k] == s[k]) && buf[v - 1] == '\0'
      modifies buf
      ensures after == NextWord(s, start) && Untouched(buf, s, after)
      ensures var w := WordAt(s, start);
              CString(buf[start..]) == w[..v - start - 1] && CString(buf[v..]) == w[v - start..]
    {
      ghost var w := WordAt(s, start);
      WordEndWithin(s, start, v);
      var p := SkipWord(buf, s, v);
      after := NulSpaces(buf, s, p);
      CStringAt(buf[..], start, w[..v - start - 1]);
      CStringAt(buf[..], v, w[v - start..]);
    }

    /** custom_env_add_from_exec_string. */
    method AddFromExecString(execStr: string)
      requires NoNul(execStr)
      modifies this
      ensures Value() == AddWords(Words(execStr, 0), old(Value()))
    {
      var buf := new char[|execStr| + 1](i requires 0 <= i => if i < |execStr| then execStr[i] else '\0');
      var start := 0;
      while buf[start] != '\0'
        invariant Untouched(buf, execStr, start)
        invariant AddWords(Words(execStr, start), Value()) == AddWords(Words(execStr, 0), old(Value()))
        decreases |execStr| - start
      {
        AddWordsStep(execStr, start, Value());
        var next := TakeAssignment(buf, execStr, start);
        if next == None {
          break;
        }
        start := next.value;
      }
      AddWordsStep(execStr, start, Value());
      TakeArguments(buf, execStr, start);
    }

    /** The argument loop. */
    method TakeArguments(buf: array<char>, ghost s: string, from: nat)
      requires Untouched(buf, s, from)
      modifies this`argp, buf
      ensures argp == old(argp) + Words(s, from)
    {
      var start := from;
      while buf[start] != '\0'
        invariant Untouched(buf, s, start)
        invariant argp + Words(s, start) == old(argp) + Words(s, from)
        decreases |s| - start
      {
        var next := TakeArgument(buf, s, start);
        if next == None {
          return;
        }
        start := next.value;
      }
    }

    method TakeArgument(buf: array<char>, ghost s: string, start: nat) returns (next: Option<nat>)
      requires Untouched(buf, s, start)
      modifies this`argp, buf
      ensures if WordEnd(s, start) == start then next == None && argp == old(argp) && Untouched(buf, s, start)
              else next == Some(NextWord(s, start)) && Untouched(buf, s, next.value)
                   && argp == old(argp) + [WordAt(s, start)]
    {
      var p := SkipWord(buf, s, start);
      if p == start {
        return None;
      }
      var after := NulSpaces(buf, s, p);
      CStringAt(buf[..], start, WordAt(s, start));
      AddArg(CString(buf[start..]));
      next := Some(after);
    }
  }

  /** What the words from a position on do, one word at a time. */
  lemma AddWordsStep(s: string, p: nat, e: Env)
    requires p <= |s|
    ensures match EqualsAt(WordAt(s, p))
            case None => AddWords(Words(s, p), e) == e.(argp := e.argp + Words(s, p))
            case Some(i) =>
              var w := WordAt(s, p);
              AddWords(Words(s, p), e) ==
                AddWords(Words(s, NextWord(s, p)), e.(envp := SetVar(e.envp, w[..i], w[i + 1..])))
    ensures p == |s| ==> EqualsAt(WordAt(s, p)) == None
  {
    if WordEnd(s, p) == p {
      assert WordAt(s, p) == "";
      Empty(e.argp);
    } else {
      var words := Words(s, p);
      assert words[0] == WordAt(s, p) && words[1..] == Words(s, NextWord(s, p));
    }
  }
}
