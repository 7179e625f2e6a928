/** The command line of the staged pipeline: `-s/--start-from <step>`,
    `-f/--force-rerun <steps>`, `-k/--skip <steps>` and `-h/--help`, read
    left to right; anything else is ignored. */
module Cli {
  import opened Wrappers
  import opened Text

  /** The options `generateAudiobook` receives. */
  datatype Options = Options(startFromStep: int, forceRerunSteps: seq<int>, skipSteps: seq<int>)

  const Defaults := Options(1, [], [])

  /** How reading the arguments ends: options to run with, the help text
      (and exit), or a crash when a list flag has no argument after it
      (`undefined.split` throws). */
  datatype CliOutcome = Run(options: Options) | ShowHelp | Crash

  predicate IsStartFlag(arg: string) {
    arg == "--start-from" || arg == "-s"
  }

  predicate IsForceFlag(arg: string) {
    arg == "--force-rerun" || arg == "-f"
  }

  predicate IsSkipFlag(arg: string) {
    arg == "--skip" || arg == "-k"
  }

  predicate IsHelpFlag(arg: string) {
    arg == "--help" || arg == "-h"
  }

  /** `parseInt(arg) || 1`: a missing argument, one that does not parse and
      one that parses to 0 all give 1. */
  function StartStep(arg: Option<string>): (step: int)
    ensures step != 0
    ensures arg.None? ==> step == 1
  {
    match arg
    case None => 1
    case Some(a) =>
      match ParseInt(a)
      case None => 1
      case Some(v) => if v == 0 then 1 else v
  }

  /** One piece of a step list: its number, or nothing when it is NaN. */
  function StepValue(piece: string): (value: seq<int>)
    ensures |value| <= 1
    ensures ParseInt(Trim(piece)).None? ==> value == []
    ensures ParseInt(Trim(piece)).Some? ==> value == [ParseInt(Trim(piece)).value]
  {
    match ParseInt(Trim(piece))
    case Some(v) => [v]
    case None => []
  }

  /** `xs.map(f)` followed by the flattening of the pieces' results, in
      order. */
  function FlatMap<T, U>(f: T -> seq<U>, xs: seq<T>): (r: seq<U>)
    decreases |xs|
  {
    if xs == [] then [] else f(xs[0]) + FlatMap(f, xs[1..])
  }

  lemma {:induction false} FlatMapAppend<T, U>(f: T -> seq<U>, x: seq<T>, y: seq<T>)
    ensures FlatMap(f, x + y) == FlatMap(f, x) + FlatMap(f, y)
    decreases |x|
  {
    if x == [] {
      assert x + y == y;
    } else {
      assert (x + y)[0] == x[0] && (x + y)[1..] == x[1..] + y;
      FlatMapAppend(f, x[1..], y);
    }
  }

  /** When f gives at most one value per element, so does the whole. */
  lemma {:induction false} FlatMapShort<T, U>(f: T -> seq<U>, xs: seq<T>)
    requires forall x :: |f(x)| <= 1
    ensures |FlatMap(f, xs)| <= |xs|
    decreases |xs|
  {
    if xs != [] {
      FlatMapShort(f, xs[1..]);
    }
  }

  /** `pieces.map(s => parseInt(s.trim())).filter(s => !isNaN(s))`: each
      piece gives its number, or nothing when it is NaN. */
  function Numbers(pieces: seq<string>): (steps: seq<int>)
    ensures |steps| <= |pieces|
  {
    FlatMapShort(StepValue, pieces);
    FlatMap(StepValue, pieces)
  }

  /** The step list of two runs of pieces is the two step lists, in order. */
  lemma NumbersAppend(x: seq<string>, y: seq<string>)
    ensures Numbers(x + y) == Numbers(x) + Numbers(y)
  {
    FlatMapAppend(StepValue, x, y);
  }

  lemma SinglePiece(p: string)
    ensures Numbers([p]) == StepValue(p)
  {
    var ps := [p];
    assert ps[0] == p && ps[1..] == [];
    assert FlatMap(StepValue, ps) == StepValue(p) + FlatMap(StepValue, []);
  }

  /** A NaN piece anywhere in the list is dropped, and the pieces around it
      keep their steps in order. */
  lemma NaNPieceDropped(a: seq<string>, p: string, b: seq<string>)
    requires ParseInt(Trim(p)).None?
    ensures Numbers(a + [p] + b) == Numbers(a + b)
  {
    SinglePiece(p);
    NumbersAppend(a + [p], b);
    NumbersAppend(a, [p]);
    NumbersAppend(a, b);
    var na, nb := Numbers(a), Numbers(b);
    assert Numbers(a + [p]) == na;
    assert Numbers(a + [p] + b) == na + nb;
  }

  /** A numeric piece anywhere in the list contributes its number at its
      place. */
  lemma NumericPieceKept(a: seq<string>, p: string, b: seq<string>)
    requires ParseInt(Trim(p)).Some?
    ensures Numbers(a + [p] + b) == Numbers(a) + [ParseInt(Trim(p)).value] + Numbers(b)
  {
    SinglePiece(p);
    NumbersAppend(a + [p], b);
    NumbersAppend(a, [p]);
  }

  /** A comma-separated step list. */
  function ParseStepList(s: string): seq<int> {
    Numbers(Split(s, ','))
  }

  /** The argument loop from position i with the options gathered so far.
      A flag that takes a value consumes the next argument. */
  function ParseFrom(args: seq<string>, i: nat, opts: Options): CliOutcome
    decreases |args| - i
  {
    if i >= |args| then Run(opts)
    else
      var arg := args[i];
      if IsStartFlag(arg) then
        ParseFrom(args, i + 2, opts.(startFromStep := StartStep(if i + 1 < |args| then Some(args[i + 1]) else None)))
      else if IsForceFlag(arg) then
        if i + 1 >= |args| then Crash
        else ParseFrom(args, i + 2, opts.(forceRerunSteps := ParseStepList(args[i + 1])))
      else if IsSkipFlag(arg) then
        if i + 1 >= |args| then Crash
        else ParseFrom(args, i + 2, opts.(skipSteps := ParseStepList(args[i + 1])))
      else if IsHelpFlag(arg) then ShowHelp
      else ParseFrom(args, i + 1, opts)
  }

  /** The loop over `process.argv.slice(2)`, overwriting fields of the
      options as flags are met. */
  method ParseArgs(args: seq<string>) returns (outcome: CliOutcome)
    ensures outcome == ParseFrom(args, 0, Defaults)
  {
    var options := Defaults;
    var i := 0;
    while i < |args|
      invariant ParseFrom(args, i, options) == ParseFrom(args, 0, Defaults)
      decreases |args| - i
    {
      var arg := args[i];
      if IsStartFlag(arg) {
        i := i + 1;
        options := options.(startFromStep := StartStep(if i < |args| then Some(args[i]) else None));
      } else if IsForceFlag(arg) {
        i := i + 1;
        if i >= |args| {
          return Crash;
        }
        options := options.(forceRerunSteps := ParseStepList(args[i]));
      } else if IsSkipFlag(arg) {
        i := i + 1;
        if i >= |args| {
          return Crash;
        }
        options := options.(skipSteps := ParseStepList(args[i]));
      } else if IsHelpFlag(arg) {
        return ShowHelp;
      }
      i := i + 1;
    }
    outcome := Run(options);
  }

  // ----- properties -----

  lemma {:induction false} ParseFromStartNonZero(args: seq<string>, i: nat, opts: Options)
    requires opts.startFromStep != 0
    ensures ParseFrom(args, i, opts).Run? ==> ParseFrom(args, i, opts).options.startFromStep != 0
    decreases |args| - i
  {
    if i < |args| {
      var arg := args[i];
      if IsStartFlag(arg) {
        ParseFromStartNonZero(args, i + 2, opts.(startFromStep := StartStep(if i + 1 < |args| then Some(args[i + 1]) else None)));
      } else if IsForceFlag(arg) {
        if i + 1 < |args| {
          ParseFromStartNonZero(args, i + 2, opts.(forceRerunSteps := ParseStepList(args[i + 1])));
        }
      } else if IsSkipFlag(arg) {
        if i + 1 < |args| {
          ParseFromStartNonZero(args, i + 2, opts.(skipSteps := ParseStepList(args[i + 1])));
        }
      } else if !IsHelpFlag(arg) {
        ParseFromStartNonZero(args, i + 1, opts);
      }
    }
  }

  /** The pipeline never starts from step 0: NaN and 0 both become 1. */
  lemma StartStepNeverZero(args: seq<string>)
    ensures ParseFrom(args, 0, Defaults).Run? ==> ParseFrom(args, 0, Defaults).options.startFromStep != 0
  {
    ParseFromStartNonZero(args, 0, Defaults);
  }

  /** A printed step number is read back; 0 becomes 1. */
  lemma StartStepReadsNumber(n: nat)
    ensures StartStep(Some(NatToString(n))) == if n == 0 then 1 else n
  {
    ParseIntOfNatToString(n);
  }

  /** Step numbers as printed pieces of a list. */
  function Printed(steps: seq<nat>): seq<string>
    decreases |steps|
  {
    if steps == [] then [] else [NatToString(steps[0])] + Printed(steps[1..])
  }

  /** A printed number has no whitespace to trim and parses back. */
  lemma PrintedStepReadsBack(n: nat)
    ensures StepValue(NatToString(n)) == [n]
  {
    var d := NatToString(n);
    assert !IsWhitespace(d[0]) && !IsWhitespace(d[|d| - 1]);
    assert TrimStart(d) == d;
    assert TrimEnd(d) == d;
    ParseIntOfNatToString(n);
  }

  lemma {:induction false} NumbersOfPrinted(steps: seq<nat>)
    ensures Numbers(Printed(steps)) == steps
    decreases |steps|
  {
    if steps != [] {
      var d := NatToString(steps[0]);
      var rest := Printed(steps[1..]);
      PrintedStepReadsBack(steps[0]);
      assert ([d] + rest)[0] == d;
      assert ([d] + rest)[1..] == rest;
      NumbersOfPrinted(steps[1..]);
      assert steps == [steps[0]] + steps[1..];
    }
  }

  /** No printed number holds a comma. */
  lemma {:induction false} PrintedHasNoComma(steps: seq<nat>)
    ensures |Printed(steps)| == |steps|
    ensures forall p :: p in Printed(steps) ==> ',' !in p
    decreases |steps|
  {
    if steps != [] {
      PrintedHasNoComma(steps[1..]);
      var d := NatToString(steps[0]);
      assert forall j :: 0 <= j < |d| ==> IsDigit(d[j]);
      assert ',' !in d;
    }
  }

  /** An empty piece is NaN. */
  lemma NothingIsNaN()
    ensures StepValue([]) == []
  {
    var e: string := [];
    assert TrimStart(e) == e;
    assert TrimEnd(e) == e;
    assert DigitPrefix(e) == [];
  }

  /** An empty list flag gives no steps. */
  lemma EmptyStepList()
    ensures ParseStepList([]) == []
  {
    var e: string := [];
    var pieces := [e];
    assert Split(e, ',') == pieces;
    assert pieces[1..] == [];
    assert Numbers(pieces) == StepValue(e) + Numbers(pieces[1..]);
    NothingIsNaN();
  }

  /** A step list written as comma-separated numbers reads back as those
      numbers, in order. */
  lemma StepListRoundTrip(steps: seq<nat>)
    ensures ParseStepList(Join(Printed(steps), ",")) == steps
  {
    if steps == [] {
      EmptyStepList();
    } else {
      var pieces := Printed(steps);
      PrintedHasNoComma(steps);
      SplitJoin(pieces, ',');
      NumbersOfPrinted(steps);
    }
  }

  /** Where the scan of the arguments from position i stops when it does
      not end in help or a crash: a value flag skips its value. */
  function ScanEnd(args: seq<string>, i: nat): nat
    decreases |args| - i
  {
    if i >= |args| then i
    else if IsStartFlag(args[i]) || IsForceFlag(args[i]) || IsSkipFlag(args[i]) then ScanEnd(args, i + 2)
    else ScanEnd(args, i + 1)
  }

  /** The options a flag and its value set. */
  function SetByFlag(opts: Options, flag: string, value: string): Options {
    if IsStartFlag(flag) then opts.(startFromStep := StartStep(Some(value)))
    else if IsForceFlag(flag) then opts.(forceRerunSteps := ParseStepList(value))
    else if IsSkipFlag(flag) then opts.(skipSteps := ParseStepList(value))
    else opts
  }

  lemma {:induction false} TrailingFlagApplies(args: seq<string>, flag: string, value: string, i: nat, opts: Options)
    requires IsStartFlag(flag) || IsForceFlag(flag) || IsSkipFlag(flag)
    requires i <= |args| && ScanEnd(args, i) == |args|
    requires ParseFrom(args, i, opts).Run?
    ensures ParseFrom(args + [flag, value], i, opts) == Run(SetByFlag(ParseFrom(args, i, opts).options, flag, value))
    decreases |args| - i
  {
    var all := args + [flag, value];
    if i == |args| {
      assert all[i] == flag && all[i + 1] == value;
      assert ParseFrom(all, i + 2, SetByFlag(opts, flag, value)) == Run(SetByFlag(opts, flag, value));
    } else {
      var arg := args[i];
      assert all[i] == arg;
      if IsStartFlag(arg) || IsForceFlag(arg) || IsSkipFlag(arg) {
        assert i + 1 < |args|;
        assert all[i + 1] == args[i + 1];
        var next := if IsStartFlag(arg) then opts.(startFromStep := StartStep(Some(args[i + 1])))
                    else if IsForceFlag(arg) then opts.(forceRerunSteps := ParseStepList(args[i + 1]))
                    else opts.(skipSteps := ParseStepList(args[i + 1]));
        assert ParseFrom(args, i, opts) == ParseFrom(args, i + 2, next);
        assert ParseFrom(all, i, opts) == ParseFrom(all, i + 2, next);
        TrailingFlagApplies(args, flag, value, i + 2, next);
      } else {
        TrailingFlagApplies(args, flag, value, i + 1, opts);
      }
    }
  }

  /** A flag given again later replaces what the earlier one set: a list
      flag's new list is not added to the old one. */
  lemma RepeatedFlagReplaces(args: seq<string>, flag: string, value: string)
    requires IsStartFlag(flag) || IsForceFlag(flag) || IsSkipFlag(flag)
    requires ScanEnd(args, 0) == |args|
    requires ParseFrom(args, 0, Defaults).Run?
    ensures ParseFrom(args + [flag, value], 0, Defaults) == Run(SetByFlag(ParseFrom(args, 0, Defaults).options, flag, value))
    ensures IsForceFlag(flag) ==> ParseFrom(args + [flag, value], 0, Defaults).options.forceRerunSteps == ParseStepList(value)
    ensures IsSkipFlag(flag) ==> ParseFrom(args + [flag, value], 0, Defaults).options.skipSteps == ParseStepList(value)
  {
    TrailingFlagApplies(args, flag, value, 0, Defaults);
  }
}
