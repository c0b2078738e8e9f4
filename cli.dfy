/** The command-line flags of `Main`. */
module Cli {

  /** `trace` prints every measurement; `useFile` loads the references instead of calibrating. */
  datatype Options = Options(trace: bool, useFile: bool)

  /** `List<string>.Contains`: a scan from the front with ordinal string equality. */
  function Contains(args: seq<string>, flag: string): (found: bool)
    ensures found <==> flag in args
    decreases |args|
  {
    if args == [] then false
    else if args[0] == flag then true
    else Contains(args[1..], flag)
  }

  /** Both options start at their defaults and each is switched by its own pair of flags. */
  function DecodeOptions(args: seq<string>): (o: Options)
    ensures o.trace <==> "-debug" in args || "-d" in args
    ensures !o.useFile <==> "-calibration" in args || "-c" in args
  {
    var trace := Contains(args, "-debug") || Contains(args, "-d");
    var calibrate := Contains(args, "-calibration") || Contains(args, "-c");
    Options(trace, !calibrate)
  }

  predicate IsFlag(arg: string)
  {
    arg == "-debug" || arg == "-d" || arg == "-calibration" || arg == "-c"
  }

  /** Without any of the four flags the defaults hold: no trace, references from the file. */
  lemma DefaultOptions(args: seq<string>)
    requires forall k :: 0 <= k < |args| ==> !IsFlag(args[k])
    ensures DecodeOptions(args) == Options(false, true)
  {
  }

  /** An argument that is not one of the four flags is ignored wherever it stands. */
  lemma OtherArgumentsIgnored(a: seq<string>, x: string, b: seq<string>)
    requires !IsFlag(x)
    ensures DecodeOptions(a + [x] + b) == DecodeOptions(a + b)
  {
  }

  /** Only which of the four flags occur matters, not their order, repetition or company. */
  lemma OptionsDependOnFlagsOnly(a: seq<string>, b: seq<string>)
    requires forall f :: IsFlag(f) ==> (f in a <==> f in b)
    ensures DecodeOptions(a) == DecodeOptions(b)
  {
  }
}
