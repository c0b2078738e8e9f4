/** How `Main` obtains the reference vectors before the monitor loop starts. */
module Startup {
  import opened Types
  import opened Cli
  import opened Records
  import opened Store
  import opened Classifier

  /** The three vectors as `Main` declares them, before loading or calibrating. */
  const Unset := References(Origin, Origin, Origin)

  /**
   * From the file when `useFile` is set, otherwise the vectors that interactive calibration
   * captured. A load starts from the origin vectors.
   */
  function StartupReferences(options: Options, lines: seq<string>, parse: string -> Option<real>,
                             calibrated: References): Result<References, LoadError>
  {
    if options.useFile then LoadLines(lines, Unset, parse) else Ok(calibrated)
  }

  /**
   * A run with `-c` calibrates and saves; a later run without `-c` and `-calibration` loads
   * that record and gets the same reference vectors, whatever it would have calibrated.
   */
  lemma CalibrateThenReload(args1: seq<string>, args2: seq<string>, calibrated: References, other: References,
                            format: real -> string, parse: string -> Option<real>)
    requires "-c" in args1
    requires "-c" !in args2 && "-calibration" !in args2
    requires VectorRoundTrips(format, parse, calibrated.closed)
    requires VectorRoundTrips(format, parse, calibrated.openOut)
    requires VectorRoundTrips(format, parse, calibrated.openIn)
    ensures StartupReferences(DecodeOptions(args1), [], parse, calibrated) == Ok(calibrated)
    ensures StartupReferences(DecodeOptions(args2), CalibrationRecord(calibrated, format), parse, other)
         == Ok(calibrated)
  {
    LoadCalibrationRecord(calibrated, Unset, format, parse);
  }

  /**
   * An empty `states.max` is not rejected: the load succeeds with all three vectors at the
   * origin, and then every measurement is classified Outside.
   */
  lemma EmptyFileClassifiesOutside(options: Options, parse: string -> Option<real>, calibrated: References,
                                   measurement: Vector3, length: Vector3 -> real)
    requires options.useFile
    ensures StartupReferences(options, [], parse, calibrated) == Ok(Unset)
    ensures GetFlapState(measurement, Unset, length) == Outside
  {
  }

  /**
   * A file whose lines carry neither `I` nor `O` leaves both open vectors at the origin, so
   * no measurement is ever classified Inside.
   */
  lemma NoOpenTagsNeverInside(options: Options, lines: seq<string>, parse: string -> Option<real>,
                              calibrated: References, measurement: Vector3, length: Vector3 -> real)
    requires options.useFile
    requires forall k :: 0 <= k < |lines| ==> Split(lines[k], Sep)[0] != "I" && Split(lines[k], Sep)[0] != "O"
    requires StartupReferences(options, lines, parse, calibrated).Ok?
    ensures GetFlapState(measurement, StartupReferences(options, lines, parse, calibrated).value, length) != Inside
  {
    UnseenTagKeepsValue(lines, Unset, parse, Inside);
    UnseenTagKeepsValue(lines, Unset, parse, Outside);
    var refs := StartupReferences(options, lines, parse, calibrated).value;
    EqualOpenReferencesNeverInside(measurement, refs, length);
  }
}
