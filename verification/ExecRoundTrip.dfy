/**
 Printing environment assignments and arguments as an exec string, and parsing it back.
 */
module ExecRoundTrip {
  import opened Wrappers
  import opened Numbers
  import opened ExecString
  import opened Seqs

  type Assignment = (string, string)

  /** A token a space-separated text can carry. */
  predicate Token(t: string) {
    t != [] && forall i :: 0 <= i < |t| ==> !IsSpace(t[i])
  }

  predicate Blank(gap: string) {
    forall i :: 0 <= i < |gap| ==> IsSpace(gap[i])
  }

  /** Gaps that separate tokens: runs of blanks, empty at most after the last token. */
  ghost predicate Separates(gaps: seq<string>) {
    forall i :: 0 <= i < |gaps| ==> Blank(gaps[i]) && (i < |gaps| - 1 ==> gaps[i] != "")
  }

  /** The text in which each token is followed by its gap. */
  function Layout(tokens: seq<string>, gaps: seq<string>): string
    requires |gaps| == |tokens|
  {
    if tokens == [] then "" else tokens[0] + (gaps[0] + Layout(tokens[1..], gaps[1..]))
  }

  /** Single spaces between the tokens, and nothing at the end. */
  function Join(tokens: seq<string>): string {
    Layout(tokens, Singles(|tokens|))
  }

  function Singles(n: nat): (gaps: seq<string>)
    ensures |gaps| == n && Separates(gaps)
  {
    seq(n, i requires 0 <= i < n => if i < n - 1 then " " else "")
  }

  function Print(a: Assignment): string { a.0 + "=" + a.1 }

  function PrintAll(assigns: seq<Assignment>): seq<string> {
    seq(|assigns|, i requires 0 <= i < |assigns| => Print(assigns[i]))
  }

  /** Assignments with clean keys, and arguments of which the first is not taken for one. */
  ghost predicate Printable(assigns: seq<Assignment>, args: seq<string>) {
    && (forall i :: 0 <= i < |assigns| ==> '=' !in assigns[i].0 && Token(Print(assigns[i])))
    && (forall i :: 0 <= i < |args| ==> Token(args[i]))
    && (args != [] ==> '=' !in args[0])
  }

  // ---- words of a printed text -----------------------------------------------------

  lemma {:induction false} WordEndIs(s: string, p: nat, e: nat)
    requires p <= e <= |s| && (e < |s| ==> IsSpace(s[e])) && forall i :: p <= i < e ==> !IsSpace(s[i])
    ensures WordEnd(s, p) == e
    decreases e - p
  {
    if p < e {
      WordEndIs(s, p + 1, e);
    }
  }

  /** The word at p is the token that stands there, when a blank or the end follows it. */
  lemma TokenIsWord(s: string, p: nat, t: string, rest: string)
    requires p <= |s| && s[p..] == t + rest && Token(t) && (rest != "" ==> IsSpace(rest[0]))
    ensures WordEnd(s, p) == p + |t| && WordAt(s, p) == t && s[p + |t|..] == rest
  {
    forall i | p <= i < p + |t| ensures s[i] == t[i - p] {
      assert s[i] == s[p..][i - p];
    }
    assert s[p + |t|..] == s[p..][|t|..] == rest;
    if rest != "" {
      assert s[p + |t|] == s[p..][|t|];
    }
    WordEndIs(s, p, p + |t|);
  }

  /** After a gap comes what follows it. */
  lemma GapIsPassed(s: string, e: nat, gap: string, rest: string)
    requires e <= |s| && s[e..] == gap + rest && Blank(gap) && (rest != "" ==> !IsSpace(rest[0]))
    ensures AfterSpaces(s, e) == e + |gap| && s[e + |gap|..] == rest
  {
    var f := AfterSpaces(s, e);
    assert s[e + |gap|..] == s[e..][|gap|..] == rest;
    forall i | e <= i < e + |gap| ensures IsSpace(s[i]) {
      assert s[i] == s[e..][i - e] == gap[i - e];
    }
    if rest != "" {
      assert s[e + |gap|] == s[e + |gap|..][0] == rest[0];
    }
  }

  /** The tokens come back, whatever stands before them and however wide the gaps are. */
  lemma {:induction false} WordsOfLayout(s: string, p: nat, tokens: seq<string>, gaps: seq<string>)
    requires |gaps| == |tokens| && Separates(gaps) && forall i :: 0 <= i < |tokens| ==> Token(tokens[i])
    requires p <= |s| && s[p..] == Layout(tokens, gaps)
    ensures Words(s, p) == tokens
    decreases |tokens|
  {
    if tokens == [] {
      assert |s[p..]| == 0;
    } else {
      var rest := Layout(tokens[1..], gaps[1..]);
      GapStarts(tokens, gaps);
      TokenIsWord(s, p, tokens[0], gaps[0] + rest);
      GapIsPassed(s, p + |tokens[0]|, gaps[0], rest);
      WordsOfLayout(s, NextWord(s, p), tokens[1..], gaps[1..]);
      WordsFrom(s, p, tokens);
    }
  }

  lemma GapStarts(tokens: seq<string>, gaps: seq<string>)
    requires tokens != [] && |gaps| == |tokens| && Separates(gaps) && forall i :: 0 <= i < |tokens| ==> Token(tokens[i])
    ensures var rest := Layout(tokens[1..], gaps[1..]);
            && (gaps[0] + rest != "" ==> IsSpace((gaps[0] + rest)[0]))
            && (rest != "" ==> !IsSpace(rest[0]))
            && Separates(gaps[1..]) && Blank(gaps[0])
  {
    if |tokens| > 1 {
      assert gaps[0] != "" && Token(tokens[1]);
      assert Layout(tokens[1..], gaps[1..])[0] == tokens[1][0];
    }
  }

  lemma WordsFrom(s: string, p: nat, tokens: seq<string>)
    requires p <= |s| && tokens != [] && Token(tokens[0])
    requires WordAt(s, p) == tokens[0] && Words(s, NextWord(s, p)) == tokens[1..]
    ensures Words(s, p) == tokens
  {
    HeadTail(tokens);
  }

  // ---- the environment ---------------------------------------------------------------

  function SetAll(env: seq<string>, assigns: seq<Assignment>): seq<string>
    decreases assigns
  {
    if assigns == [] then env else SetAll(SetVar(env, assigns[0].0, assigns[0].1), assigns[1..])
  }

  /** The last value assigned to a name. */
  function LastValue(assigns: seq<Assignment>, x: string): Option<string> {
    if assigns == [] then None
    else if LastValue(assigns[1..], x).Some? then LastValue(assigns[1..], x)
    else if assigns[0].0 == x then Some(assigns[0].1)
    else None
  }

  lemma {:induction false} LookupAfterAll(env: seq<string>, assigns: seq<Assignment>, x: string)
    requires '=' !in x && forall i :: 0 <= i < |assigns| ==> '=' !in assigns[i].0
    ensures Lookup(SetAll(env, assigns), x) ==
            if LastValue(assigns, x).Some? then LastValue(assigns, x) else Lookup(env, x)
    decreases |assigns|
  {
    if assigns != [] {
      SetThenLookup(env, assigns[0].0, assigns[0].1, x);
      LookupAfterAll(SetVar(env, assigns[0].0, assigns[0].1), assigns[1..], x);
    }
  }

  lemma SplitsAtKey(a: Assignment)
    requires '=' !in a.0
    ensures EqualsAt(Print(a)) == Some(|a.0|)
    ensures Print(a)[..|a.0|] == a.0 && Print(a)[|a.0| + 1..] == a.1
  {
    forall k | 0 <= k < |a.0| ensures Print(a)[k] != '=' {
      assert Print(a)[k] == a.0[k] && a.0[k] in a.0;
    }
    FirstEquals(Print(a), |a.0|);
  }

  lemma {:induction false} AddPrinted(assigns: seq<Assignment>, args: seq<string>, e: Env)
    requires Printable(assigns, args)
    ensures AddWords(PrintAll(assigns) + args, e) == Env(SetAll(e.envp, assigns), e.argp + args)
    decreases |assigns|
  {
    var words := PrintAll(assigns) + args;
    if assigns == [] {
      assert words == args;
      if args != [] {
        assert EqualsAt(args[0]) == None;
      }
    } else {
      assert words[0] == Print(assigns[0]);
      assert words[1..] == PrintAll(assigns[1..]) + args;
      SplitsAtKey(assigns[0]);
      AddPrinted(assigns[1..], args, e.(envp := SetVar(e.envp, assigns[0].0, assigns[0].1)));
    }
  }

  /**
   The round trip.  Parsing a text that lays the printed assignments and arguments
   out with any runs of blanks between them, and after them, appends exactly the
   arguments, and leaves an environment in which every name has the last value
   assigned to it, or, if there is none, what the old list said.
   */
  lemma {:induction false} PrintThenParse(assigns: seq<Assignment>, args: seq<string>, gaps: seq<string>, e: Env,
                                          x: string)
    requires Printable(assigns, args) && '=' !in x
    requires |gaps| == |assigns| + |args| && Separates(gaps)
    ensures var r := AddWords(Words(Layout(PrintAll(assigns) + args, gaps), 0), e);
            && r.argp == e.argp + args
            && Lookup(r.envp, x) ==
                 if LastValue(assigns, x).Some? then LastValue(assigns, x) else Lookup(e.envp, x)
  {
    var tokens := PrintAll(assigns) + args;
    var s := Layout(tokens, gaps);
    assert s[0..] == s;
    WordsOfLayout(s, 0, tokens, gaps);
    AddPrinted(assigns, args, e);
    LookupAfterAll(e.envp, assigns, x);
  }

  /** With single spaces, as exec strings are usually written. */
  lemma SingleSpacesRoundTrip(assigns: seq<Assignment>, args: seq<string>, e: Env)
    requires Printable(assigns, args)
    ensures AddWords(Words(Join(PrintAll(assigns) + args), 0), e) == Env(SetAll(e.envp, assigns), e.argp + args)
  {
    var tokens := PrintAll(assigns) + args;
    var s := Join(tokens);
    assert s[0..] == s;
    WordsOfLayout(s, 0, tokens, Singles(|tokens|));
    AddPrinted(assigns, args, e);
  }

  /** A leading space hides the whole string. */
  lemma LeadingSpaceYieldsNothing(s: string, e: Env)
    requires s != [] && IsSpace(s[0])
    ensures AddWords(Words(s, 0), e) == e
  {
  }

  /** What the parser takes for a word is never empty and contains no space. */
  lemma {:induction false} WordsAreTokens(s: string, p: nat, i: nat)
    requires p <= |s| && i < |Words(s, p)|
    ensures Token(Words(s, p)[i])
    decreases |s| - p
  {
    if i > 0 {
      WordsAreTokens(s, NextWord(s, p), i - 1);
    }
  }

  /**
   Every text from a position without a blank on is laid out this way, with the words
   the parser finds as its tokens: nothing but blanks is ever skipped.
   */
  lemma {:induction false} EveryTextIsLaidOut(s: string, p: nat) returns (gaps: seq<string>)
    requires p <= |s| && (p < |s| ==> !IsSpace(s[p]))
    ensures |gaps| == |Words(s, p)| && Separates(gaps) && s[p..] == Layout(Words(s, p), gaps)
    decreases |s| - p
  {
    if p == |s| {
      gaps := [];
    } else {
      var e, next := WordEnd(s, p), NextWord(s, p);
      assert e != p;
      var rest := EveryTextIsLaidOut(s, next);
      gaps := [s[e..next]] + rest;
      assert s[p..] == s[p..e] + (s[e..next] + s[next..]);
      if |rest| > 0 {
        assert next < |s|;
      }
      SeparatesMore(s[e..next], rest);
      assert Words(s, p)[1..] == Words(s, next) && gaps[1..] == rest;
    }
  }

  lemma SeparatesMore(gap: string, rest: seq<string>)
    requires Blank(gap) && Separates(rest) && (rest != [] ==> gap != "")
    ensures Separates([gap] + rest)
  {
    forall i | 0 <= i < |[gap] + rest|
      ensures Blank(([gap] + rest)[i]) && (i < |rest| ==> ([gap] + rest)[i] != "")
    {
      if i > 0 {
        assert ([gap] + rest)[i] == rest[i - 1];
      }
    }
  }
}
