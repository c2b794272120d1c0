/**
 The option parser as the program runs it: loops over the option table that write
 through to the targets, and one pass over argv that compacts it in place.
 */
module OptionParser {
  import opened Wrappers
  import opened Numbers
  import opened Options

  datatype Arg = Null | Str(s: string)

  function Strings(args: seq<Arg>): (r: seq<string>)
    requires forall i :: 0 <= i < |args| ==> args[i].Str?
    ensures |r| == |args| && forall i :: 0 <= i < |r| ==> args[i] == Str(r[i])
  {
    seq(|args|, i requires 0 <= i < |args| => args[i].s)
  }

  class Parser {
    const tab: Table
    var store: Store

    constructor (tab: Table, store: Store)
      ensures this.tab == tab && this.store == store
    {
      this.tab, this.store := tab, store;
    }

    method HandleOption(k: nat, text: string) returns (ok: bool, aborted: bool)
      requires k < |tab|
      modifies this
      ensures Answer(ok, store, aborted) == Handle(tab, k, text, old(store))
    {
      ok, aborted := false, false;
      match tab[k].kind {
        case Integer =>
          var cell := new IntCell(0);
          ok := SafeStrtoint(text, cell);
          if ok {
            store := store[k := IntValue(cell.value)];
          }
        case Unsigned =>
          store := store[k := UintValue(UnsignedOf(text))];
          ok := UnsignedOk(text);
        case Text =>
          store := store[k := TextValue(text)];
          ok := true;
        case Boolean =>
          aborted := true;
      }
    }

    /** handle_option for an option known to take a value. */
    method HandleValue(k: nat, text: string) returns (ok: bool)
      requires k < |tab| && tab[k].kind != Boolean
      modifies this
      ensures Answer(ok, store, false) == Handle(tab, k, text, old(store))
    {
      var aborted;
      ok, aborted := HandleOption(k, text);
    }

    method LongOption(arg: string) returns (ok: bool)
      requires IsLong(arg)
      modifies this
      ensures Answer(ok, store, false) == Long(tab, arg, old(store), 0)
    {
      var k := 0;
      while k < |tab|
        invariant k <= |tab| && store == old(store)
        invariant Long(tab, arg, store, 0) == Long(tab, arg, store, k)
      {
        if tab[k].name != None && tab[k].name.value <= arg[2..] {
          var end := |tab[k].name.value| + 2;
          if tab[k].kind == Boolean {
            if |arg| == end {
              store := store[k := BoolValue(true)];
              return true;
            }
          } else if |arg| > end && arg[end] == '=' {
            ok := HandleValue(k, arg[end + 1..]);
            return;
          }
        }
        k := k + 1;
      }
      ok := false;
    }

    method LongOptionWithArg(arg: string, param: string) returns (ok: bool, aborted: bool)
      requires IsLong(arg)
      modifies this
      ensures Answer(ok, store, aborted) == LongWithArg(tab, arg, param, old(store), 0)
    {
      var k := 0;
      while k < |tab|
        invariant k <= |tab| && store == old(store)
        invariant LongWithArg(tab, arg, param, store, 0) == LongWithArg(tab, arg, param, store, k)
      {
        if tab[k].name != None && tab[k].name.value <= arg[2..] {
          ok, aborted := HandleOption(k, param);
          return;
        }
        k := k + 1;
      }
      ok, aborted := false, false;
    }

    method ShortOption(arg: string) returns (ok: bool)
      modifies this
      ensures Answer(ok, store, false) == Short(tab, arg, old(store), 0)
    {
      if |arg| < 2 {
        NoShortFits(arg, store, 0);
        return false;
      }
      var k := 0;
      while k < |tab|
        invariant k <= |tab| && store == old(store)
        invariant Short(tab, arg, store, 0) == Short(tab, arg, store, k)
      {
        if tab[k].shortName == arg[1] {
          if tab[k].kind == Boolean {
            if |arg| == 2 {
              store := store[k := BoolValue(true)];
              return true;
            }
          } else if |arg| > 2 {
            ok := HandleValue(k, arg[2..]);
            return;
          } else {
            return false;
          }
        }
        k := k + 1;
      }
      ok := false;
    }

    method ShortOptionWithArg(arg: string, param: string) returns (ok: bool, aborted: bool)
      modifies this
      ensures Answer(ok, store, aborted) == ShortWithArg(tab, arg, param, old(store), 0)
    {
      aborted := false;
      if |arg| < 2 {
        NoShortFits(arg, store, 0);
        return false, false;
      }
      var k := 0;
      while k < |tab|
        invariant k <= |tab| && store == old(store)
        invariant ShortWithArg(tab, arg, param, store, 0) == ShortWithArg(tab, arg, param, store, k)
      {
        if tab[k].shortName == arg[1] && tab[k].kind != Boolean {
          ok, aborted := HandleOption(k, param);
          return;
        }
        k := k + 1;
      }
      ok := false;
    }

    lemma NoShortFits(arg: string, st: Store, k: nat)
      requires |arg| < 2
      ensures Short(tab, arg, st, k) == Answer(false, st, false)
      ensures forall param :: ShortWithArg(tab, arg, param, st, k) == Answer(false, st, false)
      decreases |tab| - k
    {
      if k < |tab| {
        NoShortFits(arg, st, k + 1);
      }
    }

    /** The option tried on the argument at hand, and on the next one if that is needed. */
    method TryOption(arg: string, next: Arg) returns (taken: nat, aborted: bool)
      requires |arg| > 0 && arg[0] == '-'
      modifies this
      ensures Verdict(taken, store, aborted) == One(tab, [arg] + (if next.Str? then [next.s] else []), old(store))
    {
      taken, aborted := 0, false;
      if |arg| > 1 && arg[1] == '-' {
        var ok := LongOption(arg);
        if ok {
          return 1, false;
        }
        if next.Str? {
          ok, aborted := LongOptionWithArg(arg, next.s);
          if ok {
            taken := 2;
          }
        }
      } else {
        var ok := ShortOption(arg);
        if ok {
          return 1, false;
        }
        if next.Str? {
          ok, aborted := ShortOptionWithArg(arg, next.s);
          if ok {
            taken := 2;
          }
        }
      }
    }

    /** Try one argument that is not an unignored "--"; none is taken when it is to be kept. */
    method Consume(arg: string, next: Arg, ignore: bool, ghost words: seq<string>, ghost at: nat)
      returns (taken: nat, aborted: bool)
      requires at < |words| && words[at] == arg && (arg == "--" ==> ignore)
      requires next == if at + 1 < |words| then Str(words[at + 1]) else Null
      modifies this
      ensures at + taken <= |words|
      ensures var p := Parse(tab, words[at..], ignore, old(store));
              if aborted then p.aborted && p.store == store
              else if taken > 0 then p == Parse(tab, words[at + taken..], ignore, store)
              else p == Keep(arg, Parse(tab, words[at + 1..], ignore, store))
    {
      if |arg| > 0 && arg[0] == '-' && !ignore {
        taken, aborted := TryOption(arg, next);
        OptionStep(words, at, old(store), Verdict(taken, store, aborted));
      } else {
        taken, aborted := 0, false;
        PlainStep(words, at, ignore, store);
      }
    }

    /**
     parse_options: argv[0] stays, consumed arguments go, the others move down in
     place and argv is ended with NULL.  On an abort only the verdict is promised.
     */
    method ParseOptions(argc: nat, argv: array<Arg>) returns (left: nat, aborted: bool)
      requires 1 <= argc < argv.Length && forall i :: 0 <= i < argc ==> argv[i].Str?
      modifies this, argv
      ensures var words := old(Strings(argv[..argc]));
              var p := Parse(tab, words[1..], false, old(store));
              var result := [words[0]] + p.left;
              && aborted == p.aborted && store == p.store
              && (!aborted ==>
                    && left == |result| <= argc && argv[left] == Null
                    && (forall i :: 0 <= i < left ==> argv[i] == Str(result[i]))
                    && forall i :: argc <= i < argv.Length && i != left ==> argv[i] == old(argv[i]))
    {
      ghost var words := Strings(argv[..argc]);
      ghost var kept := [words[0]];
      ghost var goal := Prepend(kept, Parse(tab, words[1..], false, store));
      var i: nat, j: nat, ignore := 1, 1, false;
      while i < argc
        invariant Compacting(argc, argv, i, j, words, kept)
        invariant forall k :: argc <= k < argv.Length ==> argv[k] == old(argv[k])
        invariant Prepend(kept, Parse(tab, words[i..], ignore, store)) == goal
        decreases argc - i, !ignore
      {
        i, j, ignore, aborted, kept := Turn(argc, argv, i, j, ignore, words, kept);
        if aborted {
          return 0, true;
        }
      }
      assert words[i..] == [];
      argv[j] := Null;
      return j, false;
    }

    /** The arguments before j are the kept ones, those from i on are as they were. */
    ghost predicate Compacting(argc: nat, argv: array<Arg>, i: nat, j: nat, words: seq<string>, kept: seq<string>)
      reads argv
    {
      && 1 <= j <= i <= argc < argv.Length && |words| == argc && |kept| == j
      && (forall k :: i <= k < argc ==> argv[k] == Str(words[k]))
      && forall k :: 0 <= k < j ==> argv[k] == Str(kept[k])
    }

    /** One turn of the loop over argv. */
    method Turn(argc: nat, argv: array<Arg>, i: nat, j: nat, ignore: bool,
                ghost words: seq<string>, ghost kept: seq<string>)
      returns (i': nat, j': nat, ignore': bool, aborted: bool, ghost kept': seq<string>)
      requires i < argc && Compacting(argc, argv, i, j, words, kept)
      modifies this, argv
      ensures forall k :: argc <= k < argv.Length ==> argv[k] == old(argv[k])
      ensures var p := Prepend(kept, Parse(tab, words[i..], ignore, old(store)));
              if aborted then p.aborted && p.store == store
              else Compacting(argc, argv, i', j', words, kept')
                   && p == Prepend(kept', Parse(tab, words[i'..], ignore', store))
                   && (i' > i || (i' == i && ignore' && !ignore))
    {
      i', j', ignore', aborted, kept' := i, j, ignore, false, kept;
      var arg := argv[i].s;
      if arg == "--" && !ignore {
        DashesStep(words[i..], store);
        ignore' := true;
        return;
      }
      var taken;
      taken, aborted := Consume(arg, if i + 1 < argc then argv[i + 1] else Null, ignore, words, i);
      if aborted {
        return;
      }
      if taken > 0 {
        i' := i + taken;
        return;
      }
      PrependKeep(kept, arg, Parse(tab, words[i + 1..], ignore, store));
      argv[j] := argv[i];
      kept' := kept + [arg];
      i', j' := i + 1, j + 1;
    }

    lemma DashesStep(args: seq<string>, st: Store)
      requires args != [] && |args[0]| == 2 && args[0][0] == '-' && args[0][1] == '-'
      ensures Parse(tab, args, false, st) == Parse(tab, args, true, st)
    {
      assert args[0] == "--";
    }

    lemma PlainStep(words: seq<string>, at: nat, ignore: bool, st: Store)
      requires at < |words| && (words[at] == [] || words[at][0] != '-' || ignore)
      ensures Parse(tab, words[at..], ignore, st) == Keep(words[at], Parse(tab, words[at + 1..], ignore, st))
    {
      assert words[at..][1..] == words[at + 1..];
    }

    lemma OptionStep(words: seq<string>, at: nat, st: Store, v: Verdict)
      requires at < |words| && words[at] != [] && words[at][0] == '-' && words[at] != "--"
      requires v == One(tab, [words[at]] + (if at + 1 < |words| then [words[at + 1]] else []), st)
      ensures at + v.taken <= |words|
      ensures v.aborted ==> Parse(tab, words[at..], false, st) == Parsed(words[at..], v.store, true)
      ensures !v.aborted && v.taken > 0 ==>
                Parse(tab, words[at..], false, st) == Parse(tab, words[at + v.taken..], false, v.store)
      ensures !v.aborted && v.taken == 0 ==>
                Parse(tab, words[at..], false, st) == Keep(words[at], Parse(tab, words[at + 1..], false, v.store))
    {
      var rest := words[at..];
      OneNeedsTwo(rest, st);
      assert rest[v.taken..] == words[at + v.taken..];
      assert rest[1..] == words[at + 1..];
    }

    lemma OneNeedsTwo(args: seq<string>, st: Store)
      requires args != []
      ensures One(tab, args, st) == One(tab, [args[0]] + (if |args| > 1 then [args[1]] else []), st)
    {
    }
  }

  function Prepend(done: seq<string>, p: Parsed): Parsed { p.(left := done + p.left) }

  lemma PrependKeep(done: seq<string>, a: string, p: Parsed)
    ensures Prepend(done, Keep(a, p)) == Prepend(done + [a], p)
  {
    assert done + ([a] + p.left) == (done + [a]) + p.left;
  }
}
