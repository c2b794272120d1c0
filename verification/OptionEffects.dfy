/**
 What a command line leaves behind: which arguments are left over, exactly, which
 option targets can change, and what an unsigned value converts to.
 */
module OptionEffects {
  import opened Wrappers
  import opened Numbers
  import opened Options
  import opened OptionsProofs

  // ---- leftovers ---------------------------------------------------------------------

  /**
   The arguments that are no options, told without targets or tables of values: an
   argument stays unless it is used up, by itself or by an option before it; from the
   first "--" on all stay.
   */
  function Remaining(tab: Table, args: seq<string>): seq<string>
    decreases |args|
  {
    if args == [] || args[0] == "--" then args
    else
      var n := if OptionLike(args[0]) then Used(tab, args) else 0;
      if n == 0 then [args[0]] + Remaining(tab, args[1..]) else Remaining(tab, args[n..])
  }

  /** What is left over is exactly that. */
  lemma {:induction false} LeftoversExactly(tab: Table, args: seq<string>, store: Store)
    requires !Parse(tab, args, false, store).aborted
    ensures Parse(tab, args, false, store).left == Remaining(tab, args)
    decreases |args|
  {
    if args != [] {
      if args[0] == "--" {
        IgnoringKeepsAll(tab, args, store);
      } else {
        var v := if OptionLike(args[0]) then One(tab, args, store) else Verdict(0, store, false);
        if OptionLike(args[0]) {
          OneUsesOrTrips(tab, args, store);
        }
        LeftoversExactly(tab, args[if v.taken > 0 then v.taken else 1..], v.store);
      }
    }
  }

  /** Arguments that do not start with a dash are all kept, when nothing else is given. */
  lemma {:induction false} PlainArgumentsStay(tab: Table, args: seq<string>, store: Store)
    requires forall i :: 0 <= i < |args| ==> !OptionLike(args[i])
    ensures Parse(tab, args, false, store) == Parsed(args, store, false)
    decreases |args|
  {
    if args != [] {
      PlainArgumentsStay(tab, args[1..], store);
      assert args == [args[0]] + args[1..];
    }
  }

  // ---- which targets change -----------------------------------------------------------------

  predicate SameAt(s: Store, t: Store, j: nat) {
    (j in t <==> j in s) && (j in s ==> t[j] == s[j])
  }

  /** The entry could be chosen by the argument in some way. */
  predicate CouldTake(o: Opt, a: string) {
    OptionLike(a) && if IsLong(a) then NameFits(o, a) else ShortFits(o, a)
  }

  lemma {:induction false} LongSparesOthers(tab: Table, a: string, store: Store, k: nat, j: nat)
    requires j < |tab| && !NameFits(tab[j], a)
    ensures SameAt(store, Long(tab, a, store, k).store, j)
    decreases |tab| - k
  {
    if k < |tab| {
      LongSparesOthers(tab, a, store, k + 1, j);
    }
  }

  lemma {:induction false} LongWithArgSparesOthers(tab: Table, a: string, param: string, store: Store, k: nat, j: nat)
    requires j < |tab| && !NameFits(tab[j], a)
    ensures SameAt(store, LongWithArg(tab, a, param, store, k).store, j)
    decreases |tab| - k
  {
    if k < |tab| {
      LongWithArgSparesOthers(tab, a, param, store, k + 1, j);
    }
  }

  lemma {:induction false} ShortSparesOthers(tab: Table, a: string, store: Store, k: nat, j: nat)
    requires j < |tab| && !ShortFits(tab[j], a)
    ensures SameAt(store, Short(tab, a, store, k).store, j)
    decreases |tab| - k
  {
    if k < |tab| {
      ShortSparesOthers(tab, a, store, k + 1, j);
    }
  }

  lemma {:induction false} ShortWithArgSparesOthers(tab: Table, a: string, param: string, store: Store, k: nat, j: nat)
    requires j < |tab| && !ShortFits(tab[j], a)
    ensures SameAt(store, ShortWithArg(tab, a, param, store, k).store, j)
    decreases |tab| - k
  {
    if k < |tab| {
      ShortWithArgSparesOthers(tab, a, param, store, k + 1, j);
    }
  }

  lemma OneSparesOthers(tab: Table, args: seq<string>, store: Store, j: nat)
    requires args != [] && OptionLike(args[0]) && j < |tab| && !CouldTake(tab[j], args[0])
    ensures SameAt(store, One(tab, args, store).store, j)
  {
    var a := args[0];
    if IsLong(a) {
      LongSparesOthers(tab, a, store, 0, j);
      if |args| >= 2 {
        LongWithArgSparesOthers(tab, a, args[1], Long(tab, a, store, 0).store, 0, j);
      }
    } else {
      ShortSparesOthers(tab, a, store, 0, j);
      if |args| >= 2 {
        ShortWithArgSparesOthers(tab, a, args[1], Short(tab, a, store, 0).store, 0, j);
      }
    }
  }

  /** An option that no argument fits by its name or its letter keeps its value over a whole command line. */
  lemma {:induction false} UnnamedOptionKeepsValue(tab: Table, args: seq<string>, ignore: bool, store: Store, j: nat)
    requires j < |tab| && forall i :: 0 <= i < |args| ==> !CouldTake(tab[j], args[i])
    ensures SameAt(store, Parse(tab, args, ignore, store).store, j)
    decreases |args|
  {
    if args != [] {
      if ignore || args[0] == "--" {
        IgnoringKeepsAll(tab, args, store);
      } else {
        var v := if OptionLike(args[0]) then One(tab, args, store) else Verdict(0, store, false);
        if OptionLike(args[0]) {
          OneSparesOthers(tab, args, store, j);
        }
        if !v.aborted {
          var n := if v.taken > 0 then v.taken else 1;
          assert forall i :: 0 <= i < |args[n..]| ==> args[n..][i] == args[i + n];
          UnnamedOptionKeepsValue(tab, args[n..], ignore, v.store, j);
        }
      }
    }
  }

  // ---- what a taken argument stores -----------------------------------------------------------

  /** The value an option of the kind holds after reading the text. */
  function Reads(kind: Kind, text: string): Value
    requires Readable(kind, text)
  {
    match kind
    case Integer => IntValue(ParseInt(text).value)
    case Unsigned => UintValue(UnsignedOf(text))
    case Text => TextValue(text)
  }

  lemma HandleReads(tab: Table, k: nat, text: string, store: Store)
    requires k < |tab| && Readable(tab[k].kind, text)
    ensures Handle(tab, k, text, store) == Answer(true, store[k := Reads(tab[k].kind, text)], false)
  {
  }

  lemma {:induction false} LongStores(tab: Table, a: string, store: Store, k: nat)
    requires FirstFit(tab, NameExact, a, k).Some? && LongReads(tab[FirstFit(tab, NameExact, a, k).value], a)
    ensures var f := FirstFit(tab, NameExact, a, k).value;
            Long(tab, a, store, k).store == store[f := AloneValue(tab[f], NameExact, a)]
    decreases |tab| - k
  {
    LongAtEntry(tab, a, store, k);
    if !Fits(tab[k], NameExact, a) {
      LongStores(tab, a, store, k + 1);
    } else if tab[k].kind != Boolean {
      HandleReads(tab, k, a[|tab[k].name.value| + 3..], store);
    }
  }

  lemma {:induction false} ShortStores(tab: Table, a: string, store: Store, k: nat)
    requires FirstFit(tab, ShortExact, a, k).Some? && ShortReads(tab[FirstFit(tab, ShortExact, a, k).value], a)
    ensures var f := FirstFit(tab, ShortExact, a, k).value;
            Short(tab, a, store, k).store == store[f := AloneValue(tab[f], ShortExact, a)]
    decreases |tab| - k
  {
    if !Fits(tab[k], ShortExact, a) {
      ShortStores(tab, a, store, k + 1);
    } else if tab[k].kind != Boolean {
      HandleReads(tab, k, a[2..], store);
    }
  }

  /** What a flag, --name=value or -nvalue gives its option. */
  function AloneValue(o: Opt, way: Way, a: string): Value
    requires Fits(o, way, a)
    requires way.NameExact? || way.ShortExact?
    requires if way.NameExact? then LongReads(o, a) else ShortReads(o, a)
  {
    if o.kind == Boolean then BoolValue(true)
    else Reads(o.kind, if way.NameExact? then a[|o.name.value| + 3..] else a[2..])
  }

  /** An argument taken by itself sets its option, the first that fits exactly, and nothing else. */
  lemma TakenAloneSets(tab: Table, args: seq<string>, store: Store)
    requires args != [] && TakenAlone(tab, args[0])
    ensures var way := if IsLong(args[0]) then NameExact else ShortExact;
            var f := FirstFit(tab, way, args[0], 0).value;
            One(tab, args, store) == Verdict(1, store[f := AloneValue(tab[f], way, args[0])], false)
  {
    if IsLong(args[0]) {
      LongTakesExact(tab, args[0], store, 0);
      LongStores(tab, args[0], store, 0);
    } else {
      ShortTakesExact(tab, args[0], store, 0);
      ShortStores(tab, args[0], store, 0);
    }
  }

  lemma {:induction false} LongWithArgStores(tab: Table, a: string, param: string, store: Store, k: nat)
    requires FirstFit(tab, NamePrefix, a, k).Some? && Readable(tab[FirstFit(tab, NamePrefix, a, k).value].kind, param)
    ensures var f := FirstFit(tab, NamePrefix, a, k).value;
            LongWithArg(tab, a, param, store, k).store == store[f := Reads(tab[f].kind, param)]
  {
    FirstFitTakesNext(tab, a, param, store, k);
    HandleReads(tab, FirstFit(tab, NamePrefix, a, k).value, param, store);
  }

  lemma {:induction false} ShortWithArgStores(tab: Table, a: string, param: string, store: Store, k: nat)
    requires FirstFit(tab, ShortValued, a, k).Some? && Readable(tab[FirstFit(tab, ShortValued, a, k).value].kind, param)
    ensures var f := FirstFit(tab, ShortValued, a, k).value;
            ShortWithArg(tab, a, param, store, k).store == store[f := Reads(tab[f].kind, param)]
    decreases |tab| - k
  {
    if Fits(tab[k], ShortValued, a) {
      HandleReads(tab, k, param, store);
    } else {
      ShortWithArgStores(tab, a, param, store, k + 1);
    }
  }

  /** An argument that takes the next one gives it to the first option that fits its beginning. */
  lemma TakenWithNextSets(tab: Table, args: seq<string>, store: Store)
    requires |args| >= 2 && !TakenAlone(tab, args[0]) && TakenWithNext(tab, args[0], args[1])
    ensures var f := FirstFit(tab, if IsLong(args[0]) then NamePrefix else ShortValued, args[0], 0).value;
            var v := One(tab, args, store);
            v.taken == 2 && f in v.store && v.store[f] == Reads(tab[f].kind, args[1])
  {
    OneUsesOrTrips(tab, args, store);
    if IsLong(args[0]) {
      LongTakesExact(tab, args[0], store, 0);
      LongWithArgStores(tab, args[0], args[1], Long(tab, args[0], store, 0).store, 0);
    } else {
      ShortTakesExact(tab, args[0], store, 0);
      ShortWithArgStores(tab, args[0], args[1], Short(tab, args[0], store, 0).store, 0);
    }
  }

  // ---- unsigned values ----------------------------------------------------------------------------

  /**
   An unsigned option reads the longest prefix of optional blanks, a sign and digits,
   and stores it modulo 2^32, a negative number as its complement, all ones when it
   does not fit 64 bits; it accepts the text if nothing follows and 64 bits suffice.
   */
  lemma UnsignedConverts(text: string, blank: string, sign: string, digits: string, rest: string)
    requires Spells(text, blank, sign, digits) && (rest != "" ==> !IsDigit(rest[0]))
    ensures UnsignedOk(text + rest) <==> rest == "" && NatValue(digits) < TWO_64
    ensures UnsignedOf(text + rest) ==
              if NatValue(digits) >= TWO_64 then TWO_32 - 1 else WithSign(sign == "-", NatValue(digits)) % TWO_32
  {
    ScanOfSpelled(text, blank, sign, digits, rest);
    if NatValue(digits) < TWO_64 {
      Complement(NatValue(digits));
    }
  }

  lemma Complement(n: nat)
    requires n < TWO_64
    ensures ((TWO_64 - n) % TWO_64) % TWO_32 == (0 - n) % TWO_32
  {
    var q := (0 - n) / TWO_32;
    var r := (0 - n) % TWO_32;
    assert 0 - n == q * TWO_32 + r;
    if n > 0 {
      assert TWO_64 - n == (q + TWO_32) * TWO_32 + r;
      RemainderIs(TWO_64 - n, q + TWO_32, r);
    }
  }

  lemma RemainderIs(m: int, q: int, r: int)
    requires m == q * TWO_32 + r && 0 <= r < TWO_32
    ensures m % TWO_32 == r
  {
  }

  /** An unsigned option accepts exactly optional blanks, a sign and digits worth less than 2^64. */
  lemma UnsignedAcceptsExactly(text: string)
    ensures UnsignedOk(text) <==> exists blank, sign, digits ::
              Spells(text, blank, sign, digits) && NatValue(digits) < TWO_64
  {
    assert text + "" == text;
    if UnsignedOk(text) {
      var blank, sign := SpelledByScan(text);
    }
    forall blank, sign, digits | Spells(text, blank, sign, digits) && NatValue(digits) < TWO_64
      ensures UnsignedOk(text)
    {
      UnsignedConverts(text, blank, sign, digits, "");
    }
  }
}
