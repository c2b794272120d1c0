/**
 The command-line option parser of shared/option-parser.c as functions on values.
 */
module Options {
  import opened Wrappers
  import opened Numbers

  datatype Kind = Integer | Unsigned | Text | Boolean

  /** An option table entry; a NUL short name never matches. */
  datatype Opt = Opt(kind: Kind, name: Option<string>, shortName: char)

  type Table = seq<Opt>

  datatype Value = IntValue(i: int) | UintValue(u: int) | TextValue(t: string) | BoolValue(b: bool)

  /** What the option targets hold, by table index. */
  type Store = map<nat, Value>

  datatype Answer = Answer(ok: bool, store: Store, aborted: bool)

  function UnsignedOf(text: string): (u: int)
    ensures 0 <= u < TWO_32
  {
    var r := ScanInteger(text);
    var n := NatValue(r.digits);
    (if n >= TWO_64 then TWO_64 - 1 else if r.negative then (TWO_64 - n) % TWO_64 else n) % TWO_32
  }

  predicate UnsignedOk(text: string) {
    var r := ScanInteger(text);
    NatValue(r.digits) < TWO_64 && r.digits != [] && r.rest == []
  }

  /** handle_option; an unsigned target is overwritten even when its text is refused. */
  function Handle(tab: Table, k: nat, text: string, store: Store): Answer
    requires k < |tab|
  {
    match tab[k].kind
    case Integer =>
      if ParseInt(text).Some? then Answer(true, store[k := IntValue(ParseInt(text).value)], false)
      else Answer(false, store, false)
    case Unsigned => Answer(UnsignedOk(text), store[k := UintValue(UnsignedOf(text))], false)
    case Text => Answer(true, store[k := TextValue(text)], false)
    case Boolean => Answer(false, store, true)
  }

  /** The option's name is a prefix of what follows the two dashes. */
  predicate NameFits(o: Opt, arg: string) {
    |arg| >= 2 && o.name.Some? && o.name.value <= arg[2..]
  }

  /** long_option from entry k on: --flag, or --name=value. */
  function Long(tab: Table, arg: string, store: Store, k: nat): Answer
    decreases |tab| - k
  {
    if k >= |tab| then Answer(false, store, false)
    else if !NameFits(tab[k], arg) then Long(tab, arg, store, k + 1)
    else
      var end := |tab[k].name.value| + 2;
      if tab[k].kind == Boolean then
        if |arg| == end then Answer(true, store[k := BoolValue(true)], false) else Long(tab, arg, store, k + 1)
      else if |arg| > end && arg[end] == '=' then Handle(tab, k, arg[end + 1..], store)
      else Long(tab, arg, store, k + 1)
  }

  /** long_option_with_arg: the first entry whose name is a prefix takes the next argument; a boolean aborts. */
  function LongWithArg(tab: Table, arg: string, param: string, store: Store, k: nat): Answer
    decreases |tab| - k
  {
    if k >= |tab| then Answer(false, store, false)
    else if !NameFits(tab[k], arg) then LongWithArg(tab, arg, param, store, k + 1)
    else Handle(tab, k, param, store)
  }

  predicate ShortFits(o: Opt, arg: string) {
    |arg| >= 2 && o.shortName == arg[1]
  }

  /** short_option: -f, or -fvalue. */
  function Short(tab: Table, arg: string, store: Store, k: nat): Answer
    decreases |tab| - k
  {
    if k >= |tab| then Answer(false, store, false)
    else if !ShortFits(tab[k], arg) then Short(tab, arg, store, k + 1)
    else if tab[k].kind == Boolean then
      if |arg| == 2 then Answer(true, store[k := BoolValue(true)], false) else Short(tab, arg, store, k + 1)
    else if |arg| > 2 then Handle(tab, k, arg[2..], store)
    else Answer(false, store, false)
  }

  function ShortWithArg(tab: Table, arg: string, param: string, store: Store, k: nat): Answer
    decreases |tab| - k
  {
    if k >= |tab| then Answer(false, store, false)
    else if !ShortFits(tab[k], arg) || tab[k].kind == Boolean then ShortWithArg(tab, arg, param, store, k + 1)
    else Handle(tab, k, param, store)
  }

  /** What an option-like argument, with the next one if there is one, turns out to be. */
  datatype Verdict = Verdict(taken: nat, store: Store, aborted: bool)

  predicate IsLong(a: string) { |a| >= 2 && a[0] == '-' && a[1] == '-' }

  function One(tab: Table, args: seq<string>, store: Store): (v: Verdict)
    requires args != []
    ensures v.taken <= 2 && v.taken <= |args|
  {
    var a := args[0];
    var first := if IsLong(a) then Long(tab, a, store, 0) else Short(tab, a, store, 0);
    if first.ok then Verdict(1, first.store, false)
    else if |args| < 2 then Verdict(0, first.store, false)
    else
      var second := if IsLong(a) then LongWithArg(tab, a, args[1], first.store, 0)
                    else ShortWithArg(tab, a, args[1], first.store, 0);
      Verdict(if second.ok then 2 else 0, second.store, second.aborted)
  }

  datatype Parsed = Parsed(left: seq<string>, store: Store, aborted: bool)

  /** parse_options on the arguments after the program name. */
  function Parse(tab: Table, args: seq<string>, ignore: bool, store: Store): Parsed
    decreases |args|, !ignore
  {
    if args == [] then Parsed([], store, false)
    else
      var a := args[0];
      if a == [] || a[0] != '-' || ignore then Keep(a, Parse(tab, args[1..], ignore, store))
      else if a == "--" then Parse(tab, args, true, store)
      else
        var v := One(tab, args, store);
        if v.aborted then Parsed(args, v.store, true)
        else if v.taken > 0 then Parse(tab, args[v.taken..], ignore, v.store)
        else Keep(a, Parse(tab, args[1..], ignore, v.store))
  }

  function Keep(a: string, p: Parsed): Parsed { p.(left := [a] + p.left) }
}

/** What a caller of the option parser can rely on, for every table and every argument list. */
module OptionsProofs {
  import opened Wrappers
  import opened Numbers
  import opened Options
  import opened Seqs

  /** a is b with some elements left out. */
  predicate Subsequence<T(==)>(a: seq<T>, b: seq<T>)
    decreases b
  {
    a == [] || (b != [] && ((a[0] == b[0] && Subsequence(a[1..], b[1..])) || Subsequence(a, b[1..])))
  }

  lemma {:induction false} SubsequenceSkips<T>(a: seq<T>, b: seq<T>, n: nat)
    requires n <= |b| && Subsequence(a, b[n..])
    ensures Subsequence(a, b)
  {
    if n == 0 {
      assert b[0..] == b;
    } else {
      assert b[1..][n - 1..] == b[n..];
      SubsequenceSkips(a, b[1..], n - 1);
    }
  }

  /** Leftover arguments are the original ones, in order, some of them consumed. */
  lemma {:induction false} LeftoversAreSubsequence(tab: Table, args: seq<string>, ignore: bool, store: Store)
    ensures Subsequence(Parse(tab, args, ignore, store).left, args)
    decreases |args|, !ignore
  {
    if args != [] {
      var a := args[0];
      if a == [] || a[0] != '-' || ignore {
        LeftoversAreSubsequence(tab, args[1..], ignore, store);
      } else if a == "--" {
        LeftoversAreSubsequence(tab, args, true, store);
      } else {
        var v := One(tab, args, store);
        if v.aborted {
          SameSubsequence(args);
        } else if v.taken > 0 {
          LeftoversAreSubsequence(tab, args[v.taken..], ignore, v.store);
          SubsequenceSkips(Parse(tab, args[v.taken..], ignore, v.store).left, args, v.taken);
        } else {
          LeftoversAreSubsequence(tab, args[1..], ignore, v.store);
        }
      }
    }
  }

  lemma {:induction false} SameSubsequence<T>(a: seq<T>)
    ensures Subsequence(a, a)
  {
    if a != [] {
      SameSubsequence(a[1..]);
    }
  }

  lemma {:induction false} IgnoringKeepsAll(tab: Table, args: seq<string>, store: Store)
    ensures Parse(tab, args, true, store) == Parsed(args, store, false)
    decreases |args|
  {
    if args != [] {
      IgnoringKeepsAll(tab, args[1..], store);
      assert args == [args[0]] + args[1..];
    }
  }

  /**
   Everything from the first "--" that is not consumed as a value is kept
   verbatim: the leftovers are a part without "--" followed by a suffix of the
   arguments, and that suffix starts with "--" unless it is empty.
   */
  lemma {:induction false} DashesEndParsing(tab: Table, args: seq<string>, store: Store)
    returns (kept: seq<string>, n: nat)
    requires !Parse(tab, args, false, store).aborted
    ensures n <= |args| && Parse(tab, args, false, store).left == kept + args[n..]
    ensures "--" !in kept && (n < |args| ==> args[n] == "--")
    decreases |args|
  {
    if args == [] {
      kept, n := [], 0;
    } else if args[0] == "--" {
      IgnoringKeepsAll(tab, args, store);
      kept, n := [], 0;
    } else {
      var a := args[0];
      var v := if a != [] && a[0] == '-' then One(tab, args, store) else Verdict(0, store, false);
      var step := if v.taken > 0 then v.taken else 1;
      ParseSteps(tab, args, store, v, step);
      var rest, m := DashesEndParsing(tab, args[step..], v.store);
      n := m + step;
      assert args[step..][m..] == args[n..];
      if v.taken > 0 {
        kept := rest;
      } else {
        kept := [a] + rest;
        Assoc([a], rest, args[n..]);
      }
    }
  }

  lemma ParseSteps(tab: Table, args: seq<string>, store: Store, v: Verdict, step: nat)
    requires args != [] && args[0] != "--" && !Parse(tab, args, false, store).aborted
    requires v == if args[0] != [] && args[0][0] == '-' then One(tab, args, store) else Verdict(0, store, false)
    requires step == if v.taken > 0 then v.taken else 1
    ensures step <= |args|
    ensures var p := Parse(tab, args[step..], false, v.store);
            !p.aborted && Parse(tab, args, false, store).left == if v.taken > 0 then p.left else [args[0]] + p.left
  {
  }

  /**
   A refused value leaves the target alone, as its documentation says for
   integers, if and only if the option is not unsigned, or its target already
   held what the refused text converts to.
   */
  lemma RefusalKeepsTargetIffNotUnsigned(tab: Table, k: nat, text: string, store: Store)
    requires k < |tab| && !Handle(tab, k, text, store).ok
    ensures Handle(tab, k, text, store).store == store
       <==> tab[k].kind != Unsigned || (k in store && store[k] == UintValue(UnsignedOf(text)))
  {
    var s := Handle(tab, k, text, store).store;
    if tab[k].kind == Unsigned {
      assert k in s && s[k] == UintValue(UnsignedOf(text));
    }
  }

  // ---- aborting ---------------------------------------------------------------------

  /** How an entry can be chosen by an argument. */
  datatype Way = NamePrefix | NameExact | ShortExact | ShortValued

  predicate Fits(o: Opt, way: Way, arg: string) {
    match way
    case NamePrefix => NameFits(o, arg)
    case NameExact =>
      NameFits(o, arg) && var end := |o.name.value| + 2;
      if o.kind == Boolean then |arg| == end else |arg| > end && arg[end] == '='
    case ShortExact => ShortFits(o, arg) && (o.kind == Boolean ==> |arg| == 2)
    case ShortValued => ShortFits(o, arg) && o.kind != Boolean
  }

  /** The first entry from k on that the argument chooses in the given way. */
  function FirstFit(tab: Table, way: Way, arg: string, k: nat): (r: Option<nat>)
    ensures r.Some? ==> k <= r.value < |tab| && Fits(tab[r.value], way, arg)
    ensures forall i :: k <= i < (if r.Some? then r.value else |tab|) ==> !Fits(tab[i], way, arg)
    decreases |tab| - k
  {
    if k >= |tab| then None else if Fits(tab[k], way, arg) then Some(k) else FirstFit(tab, way, arg, k + 1)
  }

  /** An option of the kind accepts the text as its value. */
  predicate Readable(kind: Kind, text: string) {
    match kind
    case Integer => ParseInt(text).Some?
    case Unsigned => UnsignedOk(text)
    case Text => true
    case Boolean => false
  }

  predicate LongReads(o: Opt, a: string)
    requires Fits(o, NameExact, a)
  {
    o.kind == Boolean || Readable(o.kind, a[|o.name.value| + 3..])
  }

  predicate ShortReads(o: Opt, a: string)
    requires Fits(o, ShortExact, a)
  {
    o.kind == Boolean || (|a| > 2 && Readable(o.kind, a[2..]))
  }

  /** An argument that is an option by itself: a flag, --name=value or -nvalue, with a value that can be read. */
  predicate TakenAlone(tab: Table, a: string) {
    var f := FirstFit(tab, if IsLong(a) then NameExact else ShortExact, a, 0);
    f.Some? && if IsLong(a) then LongReads(tab[f.value], a) else ShortReads(tab[f.value], a)
  }

  /** An argument that takes the next one as its value. */
  predicate TakenWithNext(tab: Table, a: string, param: string) {
    var f := FirstFit(tab, if IsLong(a) then NamePrefix else ShortValued, a, 0);
    f.Some? && Readable(tab[f.value].kind, param)
  }

  /** A long argument, no option by itself, with another one behind it, whose first fitting name is a boolean's. */
  predicate Trips(tab: Table, args: seq<string>)
    requires args != []
  {
    && |args| >= 2 && IsLong(args[0]) && !TakenAlone(tab, args[0])
    && var f := FirstFit(tab, NamePrefix, args[0], 0); f.Some? && tab[f.value].kind == Boolean
  }

  lemma LongAtEntry(tab: Table, arg: string, store: Store, k: nat)
    requires k < |tab|
    ensures if Fits(tab[k], NameExact, arg) then Long(tab, arg, store, k).ok <==> LongReads(tab[k], arg)
            else Long(tab, arg, store, k) == Long(tab, arg, store, k + 1)
  {
  }

  lemma {:induction false} LongTakesExact(tab: Table, arg: string, store: Store, k: nat)
    ensures var f := FirstFit(tab, NameExact, arg, k);
            Long(tab, arg, store, k).ok <==> f.Some? && LongReads(tab[f.value], arg)
    decreases |tab| - k
  {
    if k < |tab| {
      LongAtEntry(tab, arg, store, k);
      if !Fits(tab[k], NameExact, arg) {
        LongTakesExact(tab, arg, store, k + 1);
      }
    }
  }

  /**
   The assertion on boolean options fires exactly when the first entry whose name
   is a prefix is boolean; the next argument is taken exactly when that entry can
   read it.
   */
  lemma {:induction false} AbortsIffFirstFitIsBoolean(tab: Table, arg: string, param: string, store: Store, k: nat)
    ensures var f := FirstFit(tab, NamePrefix, arg, k);
            var r := LongWithArg(tab, arg, param, store, k);
            && (r.aborted <==> f.Some? && tab[f.value].kind == Boolean)
            && (r.ok <==> f.Some? && Readable(tab[f.value].kind, param))
    decreases |tab| - k
  {
    if k < |tab| && !NameFits(tab[k], arg) {
      AbortsIffFirstFitIsBoolean(tab, arg, param, store, k + 1);
    }
  }

  lemma {:induction false} ShortTakesExact(tab: Table, arg: string, store: Store, k: nat)
    ensures var f := FirstFit(tab, ShortExact, arg, k);
            Short(tab, arg, store, k).ok <==> f.Some? && ShortReads(tab[f.value], arg)
    decreases |tab| - k
  {
    if k < |tab| && !Fits(tab[k], ShortExact, arg) {
      ShortTakesExact(tab, arg, store, k + 1);
    }
  }

  lemma {:induction false} ShortTakesNext(tab: Table, arg: string, param: string, store: Store, k: nat)
    ensures var f := FirstFit(tab, ShortValued, arg, k);
            var r := ShortWithArg(tab, arg, param, store, k);
            !r.aborted && (r.ok <==> f.Some? && Readable(tab[f.value].kind, param))
    decreases |tab| - k
  {
    if k < |tab| && !Fits(tab[k], ShortValued, arg) {
      ShortTakesNext(tab, arg, param, store, k + 1);
    }
  }

  /** Arguments an option-like argument uses up, itself included. */
  function Used(tab: Table, args: seq<string>): (n: nat)
    requires args != []
    ensures n <= |args|
  {
    if TakenAlone(tab, args[0]) then 1
    else if |args| >= 2 && TakenWithNext(tab, args[0], args[1]) then 2
    else 0
  }

  lemma LongUsesOrTrips(tab: Table, args: seq<string>, store: Store)
    requires args != [] && IsLong(args[0])
    ensures var v := One(tab, args, store); v.taken == Used(tab, args) && (v.aborted <==> Trips(tab, args))
  {
    LongTakesExact(tab, args[0], store, 0);
    if |args| >= 2 {
      AbortsIffFirstFitIsBoolean(tab, args[0], args[1], Long(tab, args[0], store, 0).store, 0);
    }
  }

  lemma ShortUses(tab: Table, args: seq<string>, store: Store)
    requires args != [] && !IsLong(args[0])
    ensures var v := One(tab, args, store); v.taken == Used(tab, args) && !v.aborted
  {
    ShortTakesExact(tab, args[0], store, 0);
    if |args| >= 2 {
      ShortTakesNext(tab, args[0], args[1], Short(tab, args[0], store, 0).store, 0);
    }
  }

  /** What becomes of one option-like argument, whatever the targets hold: what it uses up, and when it aborts. */
  lemma OneUsesOrTrips(tab: Table, args: seq<string>, store: Store)
    requires args != []
    ensures One(tab, args, store).taken == Used(tab, args)
    ensures One(tab, args, store).aborted <==> Trips(tab, args)
  {
    if IsLong(args[0]) {
      LongUsesOrTrips(tab, args, store);
    } else {
      ShortUses(tab, args, store);
    }
  }

  predicate OptionLike(a: string) { a != "" && a[0] == '-' }

  /** Argument i is looked at as an option: it starts with a dash, is no value, and no "--" came before. */
  predicate Examined(tab: Table, args: seq<string>, i: nat)
    requires i < |args|
    decreases |args|
  {
    args[0] != "--" &&
    if i == 0 then OptionLike(args[0])
    else
      var n := if OptionLike(args[0]) && Used(tab, args) == 2 then 2 else 1;
      i >= n && Examined(tab, args[n..], i - n)
  }

  /** Argument i is looked at as an option and trips the assertion. */
  predicate TripsAt(tab: Table, args: seq<string>, i: nat)
    requires i < |args|
  {
    Examined(tab, args, i) && Trips(tab, args[i..])
  }

  lemma TripsLater(tab: Table, args: seq<string>, n: nat, i: nat)
    requires args != [] && args[0] != "--" && n == (if OptionLike(args[0]) && Used(tab, args) == 2 then 2 else 1)
    requires 0 < i < |args|
    ensures TripsAt(tab, args, i) <==> i >= n && TripsAt(tab, args[n..], i - n)
  {
    if i >= n {
      assert args[n..][i - n..] == args[i..];
    }
  }

  /**
   When a command line aborts, exactly: when an argument that is looked at as an
   option is long, is no option by itself, has another argument behind it, and the
   first name in the table that is a prefix of it is a boolean's.
   */
  lemma {:induction false} ParseAbortsIff(tab: Table, args: seq<string>, store: Store)
    ensures Parse(tab, args, false, store).aborted <==> exists i :: 0 <= i < |args| && TripsAt(tab, args, i)
    decreases |args|
  {
    if args == [] {
    } else if args[0] == "--" {
      IgnoringKeepsAll(tab, args, store);
    } else {
      var v := if OptionLike(args[0]) then One(tab, args, store) else Verdict(0, store, false);
      if OptionLike(args[0]) {
        OneUsesOrTrips(tab, args, store);
      }
      var n := if v.taken == 2 then 2 else 1;
      ParseAbortsIff(tab, args[n..], v.store);
      assert args[0..] == args;
      assert TripsAt(tab, args, 0) <==> OptionLike(args[0]) && Trips(tab, args);
      TripsFrom(tab, args, n);
    }
  }

  lemma TripsFrom(tab: Table, args: seq<string>, n: nat)
    requires args != [] && args[0] != "--" && n == (if OptionLike(args[0]) && Used(tab, args) == 2 then 2 else 1)
    ensures (exists i :: 0 <= i < |args| && TripsAt(tab, args, i))
       <==> TripsAt(tab, args, 0) || exists i :: 0 <= i < |args[n..]| && TripsAt(tab, args[n..], i)
  {
    forall i | 0 < i < |args| ensures TripsAt(tab, args, i) <==> i >= n && TripsAt(tab, args[n..], i - n) {
      TripsLater(tab, args, n, i);
    }
    if i :| 0 <= i < |args[n..]| && TripsAt(tab, args[n..], i) {
      assert TripsAt(tab, args, i + n);
    }
  }

  /** No long argument extends the boolean name it fits first. */
  ghost predicate NoBooleanPrefix(tab: Table, args: seq<string>) {
    forall i :: 0 <= i < |args| && IsLong(args[i]) ==>
      var f := FirstFit(tab, NamePrefix, args[i], 0);
      f.Some? && tab[f.value].kind == Boolean ==> args[i][2..] == tab[f.value].name.value
  }

  lemma ExactBoolean(tab: Table, args: seq<string>, i: nat)
    requires i < |args| && NoBooleanPrefix(tab, args)
    ensures !Trips(tab, args[i..])
  {
    var a := args[i];
    var f := FirstFit(tab, NamePrefix, a, 0);
    if IsLong(a) && f.Some? && tab[f.value].kind == Boolean {
      assert Fits(tab[f.value], NameExact, a);
      var e := FirstFit(tab, NameExact, a, 0);
      assert e == f;
      assert LongReads(tab[e.value], a);
    }
  }

  /** A simple test that is enough: such a command line never aborts, whatever it uses up. */
  lemma NeverAborts(tab: Table, args: seq<string>, ignore: bool, store: Store)
    requires NoBooleanPrefix(tab, args)
    ensures !Parse(tab, args, ignore, store).aborted
  {
    if ignore {
      IgnoringKeepsAll(tab, args, store);
    } else {
      ParseAbortsIff(tab, args, store);
      forall i | 0 <= i < |args| ensures !TripsAt(tab, args, i) {
        ExactBoolean(tab, args, i);
      }
    }
  }

  /** The abort is real: "--foobar x" with a boolean option "foo" reaches it. */
  lemma BooleanPrefixAborts()
    ensures exists tab: Table, args :: Parse(tab, args, false, map[]).aborted
  {
    var tab := [Opt(Boolean, Some("foo"), '\0')];
    var args := ["--foobar", "x"];
    assert "foobar" == "--foobar"[2..] && "foo" == "foobar"[..3];
    assert Fits(tab[0], NamePrefix, args[0]) && !Fits(tab[0], NameExact, args[0]);
    assert args[0..] == args && TripsAt(tab, args, 0);
    ParseAbortsIff(tab, args, map[]);
  }

  // ---- settings round-trip ---------------------------------------------------------------

  /** The ways to write a setting: --name=value, --name value, -nvalue, -n value, --name, -n. */
  datatype Spelling = LongEquals | LongSpace | ShortGlued | ShortSpace | LongFlag | ShortFlag

  datatype Setting = Setting(k: nat, value: Value, spelling: Spelling)

  /** Option names are distinct and contain no equals sign; short names are distinct and none is a dash. */
  ghost predicate CleanNames(tab: Table) {
    && (forall i :: 0 <= i < |tab| && tab[i].name.Some? ==> '=' !in tab[i].name.value)
    && (forall i, j :: 0 <= i < j < |tab| && tab[i].name.Some? ==> tab[i].name != tab[j].name)
    && (forall i, j :: 0 <= i < j < |tab| && tab[i].shortName != '\0' ==> tab[i].shortName != tab[j].shortName)
    && forall i :: 0 <= i < |tab| ==> tab[i].shortName != '-'
  }

  /** The value is one the option can hold. */
  predicate Holds(o: Opt, v: Value) {
    match o.kind
    case Integer => v.IntValue? && IsInt32(v.i)
    case Unsigned => v.UintValue? && 0 <= v.u < TWO_32
    case Text => v.TextValue?
    case Boolean => v == BoolValue(true)
  }

  /**
   The spelling can be used for the option: it has the name it needs, flags are
   for booleans only, a glued value is not empty, and a long name followed by its
   value in the next argument is not shadowed by an earlier entry it extends.
   */
  predicate Suits(tab: Table, s: Setting) {
    && s.k < |tab| && Holds(tab[s.k], s.value)
    && match s.spelling
       case LongEquals => tab[s.k].name.Some? && tab[s.k].kind != Boolean
       case LongSpace => tab[s.k].name.Some? && tab[s.k].kind != Boolean && tab[s.k].name.value != ""
                         && FirstFit(tab, NamePrefix, "--" + tab[s.k].name.value, 0) == Some(s.k)
       case ShortGlued => tab[s.k].shortName != '\0' && tab[s.k].kind != Boolean && Show(s.value) != ""
       case ShortSpace => tab[s.k].shortName != '\0' && tab[s.k].kind != Boolean
       case LongFlag => tab[s.k].name.Some? && tab[s.k].kind == Boolean && tab[s.k].name.value != ""
       case ShortFlag => tab[s.k].shortName != '\0' && tab[s.k].kind == Boolean
  }

  function Show(v: Value): string {
    match v
    case IntValue(i) => Decimal(i)
    case UintValue(u) => Decimal(u)
    case TextValue(t) => t
    case BoolValue(_) => ""
  }

  /** The arguments that spell a setting. */
  function Spell(tab: Table, s: Setting): (r: seq<string>)
    requires Suits(tab, s)
    ensures 1 <= |r| <= 2
  {
    match s.spelling
    case LongEquals => ["--" + tab[s.k].name.value + "=" + Show(s.value)]
    case LongSpace => ["--" + tab[s.k].name.value, Show(s.value)]
    case ShortGlued => ["-" + [tab[s.k].shortName] + Show(s.value)]
    case ShortSpace => ["-" + [tab[s.k].shortName], Show(s.value)]
    case LongFlag => ["--" + tab[s.k].name.value]
    case ShortFlag => ["-" + [tab[s.k].shortName]]
  }

  lemma UnsignedInvertsDecimal(u: int)
    requires 0 <= u < TWO_32
    ensures UnsignedOk(Decimal(u)) && UnsignedOf(Decimal(u)) == u
  {
    DecimalScans(u, "");
    assert Decimal(u) + "" == Decimal(u);
    assert ScanInteger(Decimal(u)) == Scan(false, NatText(u), "");
  }

  lemma ShownValueIsHandled(o: Opt, tab: Table, k: nat, v: Value, store: Store)
    requires k < |tab| && tab[k] == o && Holds(o, v) && o.kind != Boolean
    ensures Handle(tab, k, Show(v), store) == Answer(true, store[k := v], false)
  {
    match v
    case IntValue(i) => ParseInvertsDecimal(i);
    case UintValue(u) => UnsignedInvertsDecimal(u);
    case TextValue(_) =>
    case BoolValue(_) =>
  }

  /** Another option's name that is a prefix of name=text stops short of the equals sign. */
  lemma OtherNameIsPassed(other: string, name: string, text: string)
    requires '=' !in other && '=' !in name && other != name && other <= name + "=" + text
    ensures |other| < |name| && (name + "=" + text)[|other|] != '='
  {
    var all := name + "=" + text;
    assert all[|name|] == '=' && all[..|name|] == name;
    forall i | 0 <= i < |other| ensures all[i] != '=' {
      assert all[i] == other[i] && other[i] in other;
    }
    assert other == all[..|other|];
    assert all[|other|] == name[|other|] && name[|other|] in name;
  }

  /** --name=value reaches its own entry whatever other names are prefixes of it. */
  lemma {:induction false} LongFindsOption(tab: Table, j: nat, v: Value, store: Store, k: nat)
    requires CleanNames(tab) && k <= j < |tab| && Holds(tab[j], v) && tab[j].kind != Boolean && tab[j].name.Some?
    ensures Long(tab, "--" + tab[j].name.value + "=" + Show(v), store, k) == Answer(true, store[j := v], false)
    decreases j - k
  {
    var name := tab[j].name.value;
    var text := Show(v);
    var arg := "--" + name + "=" + text;
    assert arg[2..] == name + "=" + text;
    if k == j {
      assert name <= arg[2..];
      assert arg[|name| + 3..] == text;
      ShownValueIsHandled(tab[j], tab, j, v, store);
    } else {
      if NameFits(tab[k], arg) {
        OtherNameIsPassed(tab[k].name.value, name, text);
        assert arg[|tab[k].name.value| + 2] == (name + "=" + text)[|tab[k].name.value|];
      }
      LongFindsOption(tab, j, v, store, k + 1);
    }
  }

  /** A bare --name sets a boolean, and is not taken for anything else on the way. */
  lemma {:induction false} BareLongName(tab: Table, j: nat, store: Store, k: nat)
    requires CleanNames(tab) && j < |tab| && tab[j].name.Some?
    ensures Long(tab, "--" + tab[j].name.value, store, k) ==
            if k <= j && tab[j].kind == Boolean then Answer(true, store[j := BoolValue(true)], false)
            else Answer(false, store, false)
    decreases |tab| - k
  {
    var name := tab[j].name.value;
    var arg := "--" + name;
    assert arg[2..] == name;
    if k < |tab| {
      if k != j || tab[j].kind != Boolean {
        BareLongName(tab, j, store, k + 1);
      }
      if NameFits(tab[k], arg) {
        var end := |tab[k].name.value| + 2;
        assert end < |arg| ==> arg[end] == name[end - 2] && name[end - 2] in name;
        assert end == |arg| ==> tab[k].name.value == name;
      }
    }
  }

  lemma {:induction false} FirstFitTakesNext(tab: Table, arg: string, param: string, store: Store, k: nat)
    requires FirstFit(tab, NamePrefix, arg, k).Some?
    ensures LongWithArg(tab, arg, param, store, k) == Handle(tab, FirstFit(tab, NamePrefix, arg, k).value, param, store)
    decreases |tab| - k
  {
    if !NameFits(tab[k], arg) {
      FirstFitTakesNext(tab, arg, param, store, k + 1);
    }
  }

  /** A short name reaches its own entry. */
  lemma {:induction false} ShortFindsOption(tab: Table, j: nat, text: string, param: string, store: Store, k: nat)
    requires CleanNames(tab) && k <= j < |tab| && tab[j].shortName != '\0'
    ensures var arg := "-" + [tab[j].shortName] + text;
            && Short(tab, arg, store, k) ==
                 (if tab[j].kind == Boolean
                  then Answer(text == "", if text == "" then store[j := BoolValue(true)] else store, false)
                  else if text != "" then Handle(tab, j, text, store) else Answer(false, store, false))
            && (tab[j].kind != Boolean ==> ShortWithArg(tab, arg, param, store, k) == Handle(tab, j, param, store))
    decreases j - k
  {
    var arg := "-" + [tab[j].shortName] + text;
    assert arg[2..] == text;
    if k < j {
      ShortFindsOption(tab, j, text, param, store, k + 1);
    } else if tab[j].kind == Boolean && text != "" {
      NoOtherShort(tab, j, arg, store, j + 1);
    }
  }

  lemma {:induction false} NoOtherShort(tab: Table, j: nat, arg: string, store: Store, k: nat)
    requires CleanNames(tab) && j < k && j < |tab| && |arg| >= 2 && arg[1] == tab[j].shortName && arg[1] != '\0'
    ensures Short(tab, arg, store, k) == Answer(false, store, false)
    decreases |tab| - k
  {
    if k < |tab| {
      NoOtherShort(tab, j, arg, store, k + 1);
    }
  }

  /** A spelled setting at the front of the arguments is consumed and stored. */
  lemma SettingIsTaken(tab: Table, s: Setting, rest: seq<string>, store: Store)
    requires CleanNames(tab) && Suits(tab, s)
    ensures One(tab, Spell(tab, s) + rest, store) == Verdict(|Spell(tab, s)|, store[s.k := s.value], false)
    ensures var a := Spell(tab, s)[0]; a != "" && a[0] == '-' && a != "--"
  {
    var args := Spell(tab, s) + rest;
    match s.spelling
    case LongEquals => LongFindsOption(tab, s.k, s.value, store, 0);
    case LongSpace =>
      BareLongName(tab, s.k, store, 0);
      FirstFitTakesNext(tab, args[0], args[1], store, 0);
      ShownValueIsHandled(tab[s.k], tab, s.k, s.value, store);
    case ShortGlued =>
      ShortFindsOption(tab, s.k, Show(s.value), "", store, 0);
      ShownValueIsHandled(tab[s.k], tab, s.k, s.value, store);
    case ShortSpace =>
      ShortFindsOption(tab, s.k, "", args[1], store, 0);
      assert args[0] == "-" + [tab[s.k].shortName] + "";
      ShownValueIsHandled(tab[s.k], tab, s.k, s.value, store);
    case LongFlag => BareLongName(tab, s.k, store, 0);
    case ShortFlag =>
      ShortFindsOption(tab, s.k, "", "", store, 0);
      assert args[0] == "-" + [tab[s.k].shortName] + "";
  }

  function SpellAll(tab: Table, ss: seq<Setting>): seq<string>
    requires forall i :: 0 <= i < |ss| ==> Suits(tab, ss[i])
  {
    if ss == [] then [] else Spell(tab, ss[0]) + SpellAll(tab, ss[1..])
  }

  function StoreAll(store: Store, ss: seq<Setting>): Store
    decreases ss
  {
    if ss == [] then store else StoreAll(store[ss[0].k := ss[0].value], ss[1..])
  }

  lemma {:induction false} ParseStoresAll(tab: Table, ss: seq<Setting>, store: Store)
    requires CleanNames(tab) && forall i :: 0 <= i < |ss| ==> Suits(tab, ss[i])
    ensures Parse(tab, SpellAll(tab, ss), false, store) == Parsed([], StoreAll(store, ss), false)
    decreases |ss|
  {
    if ss != [] {
      var first := Spell(tab, ss[0]);
      var rest := SpellAll(tab, ss[1..]);
      SettingIsTaken(tab, ss[0], rest, store);
      assert (first + rest)[|first|..] == rest;
      ParseStoresAll(tab, ss[1..], store[ss[0].k := ss[0].value]);
    }
  }

  lemma {:induction false} StoredExactly(store: Store, ss: seq<Setting>, i: nat)
    requires i < |ss| && forall a, b :: 0 <= a < b < |ss| ==> ss[a].k != ss[b].k
    ensures ss[i].k in StoreAll(store, ss) && StoreAll(store, ss)[ss[i].k] == ss[i].value
    decreases |ss|
  {
    var next := store[ss[0].k := ss[0].value];
    if i > 0 {
      StoredExactly(next, ss[1..], i - 1);
    } else {
      StoreKeeps(next, ss[1..], ss[0].k);
    }
  }

  lemma {:induction false} StoreKeeps(store: Store, ss: seq<Setting>, k: nat)
    requires forall a :: 0 <= a < |ss| ==> ss[a].k != k
    ensures (k in StoreAll(store, ss) <==> k in store) && (k in store ==> StoreAll(store, ss)[k] == store[k])
    decreases |ss|
  {
    if ss != [] {
      StoreKeeps(store[ss[0].k := ss[0].value], ss[1..], k);
    }
  }

  /**
   Any list of settings for different options, each in any of the six spellings,
   is consumed completely; each option then holds exactly its value and no other
   option changes.
   */
  lemma SettingsRoundTrip(tab: Table, ss: seq<Setting>, store: Store, k: nat)
    requires CleanNames(tab) && forall i :: 0 <= i < |ss| ==> Suits(tab, ss[i])
    requires forall a, b :: 0 <= a < b < |ss| ==> ss[a].k != ss[b].k
    ensures var p := Parse(tab, SpellAll(tab, ss), false, store);
            && p.left == [] && !p.aborted
            && (forall i :: 0 <= i < |ss| ==> ss[i].k in p.store && p.store[ss[i].k] == ss[i].value)
            && ((forall i :: 0 <= i < |ss| ==> ss[i].k != k) ==>
                  (k in p.store <==> k in store) && (k in store ==> p.store[k] == store[k]))
  {
    ParseStoresAll(tab, ss, store);
    forall i | 0 <= i < |ss| ensures ss[i].k in StoreAll(store, ss) && StoreAll(store, ss)[ss[i].k] == ss[i].value {
      StoredExactly(store, ss, i);
    }
    if forall i :: 0 <= i < |ss| ==> ss[i].k != k {
      StoreKeeps(store, ss, k);
    }
  }
}
