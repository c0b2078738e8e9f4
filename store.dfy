/** Loading the reference vectors back from the lines of `states.max` (`InitializeFromFile`). */
module Store {
  import opened Types
  import opened Records

  /** The two exceptions a line can raise: a missing field, or a field that is not a number. */
  datatype LoadError = IndexOutOfRange | FormatError

  /** The tag under which the reference vector of state `s` is written and read. */
  function TagOf(s: FlapState): string
  {
    match s
    case Closed => "C"
    case Outside => "O"
    case Inside => "I"
  }

  /** `float.Parse(segs[k])`: fails first if the field is missing, then if it does not parse. */
  function ParseField(segs: seq<string>, k: nat, parse: string -> Option<real>): Result<real, LoadError>
  {
    if k >= |segs| then Err(IndexOutOfRange)
    else match parse(segs[k])
      case None => Err(FormatError)
      case Some(n) => Ok(n)
  }

  /**
   * Splits a line on `;` and parses fields 1, 2 and 3, in that order, before the tag in
   * field 0 is looked at. Fields after the third are ignored.
   */
  function ParseLine(line: string, parse: string -> Option<real>): (r: Result<(string, Vector3), LoadError>)
    ensures var segs := Split(line, Sep);
            r.Ok? <==> |segs| >= 4 && parse(segs[1]).Some? && parse(segs[2]).Some? && parse(segs[3]).Some?
    ensures var segs := Split(line, Sep);
            r.Ok? ==> r.value == (segs[0], Vector3(parse(segs[1]).value, parse(segs[2]).value, parse(segs[3]).value))
    // a missing field is reported only when every field before it parsed
    ensures var segs := Split(line, Sep);
            r == Err(IndexOutOfRange) <==>
              |segs| < 2
              || (parse(segs[1]).Some? && (|segs| < 3 || (parse(segs[2]).Some? && |segs| < 4)))
  {
    var segs := Split(line, Sep);
    match ParseField(segs, 1, parse)
    case Err(e) => Err(e)
    case Ok(x) =>
      match ParseField(segs, 2, parse)
      case Err(e) => Err(e)
      case Ok(y) =>
        match ParseField(segs, 3, parse)
        case Err(e) => Err(e)
        case Ok(z) => Ok((segs[0], Vector3(x, y, z)))
  }

  /** The `switch (segs[0])`: O, I and C each assign one reference vector; any other tag none. */
  function Assign(tag: string, v: Vector3, refs: References): References
  {
    if tag == "O" then refs.(openOut := v)
    else if tag == "I" then refs.(openIn := v)
    else if tag == "C" then refs.(closed := v)
    else refs
  }

  /** A tag assigns exactly the vector of the state it names and leaves the others alone. */
  lemma AssignSlots(tag: string, v: Vector3, refs: References, s: FlapState)
    ensures RefOf(Assign(tag, v, refs), s) == if tag == TagOf(s) then v else RefOf(refs, s)
  {
  }

  /** A tag that names no state changes nothing. */
  lemma UnknownTagChangesNothing(tag: string, v: Vector3, refs: References)
    requires tag != "C" && tag != "O" && tag != "I"
    ensures Assign(tag, v, refs) == refs
  {
  }

  /** One iteration of the `foreach`: parse the line, then assign. */
  function LoadLine(line: string, refs: References, parse: string -> Option<real>): Result<References, LoadError>
  {
    match ParseLine(line, parse)
    case Err(e) => Err(e)
    case Ok((tag, v)) => Ok(Assign(tag, v, refs))
  }

  /** All lines of the file, in order, starting from the incoming reference vectors. */
  function LoadLines(lines: seq<string>, refs: References, parse: string -> Option<real>): Result<References, LoadError>
    decreases |lines|
  {
    if lines == [] then Ok(refs)
    else
      match LoadLine(lines[0], refs, parse)
      case Err(e) => Err(e)
      case Ok(next) => LoadLines(lines[1..], next, parse)
  }

  /**
   * `InitializeFromFile`: the `foreach` over the lines updating the three `ref` vectors. An
   * exception ends the loop; what it leaves in the vectors is not returned, since it ends
   * the program.
   */
  method InitializeFromFile(lines: seq<string>, closed0: Vector3, openIn0: Vector3, openOut0: Vector3,
                            parse: string -> Option<real>)
    returns (r: Result<References, LoadError>)
    ensures r == LoadLines(lines, References(closed0, openIn0, openOut0), parse)
  {
    var closed, openIn, openOut := closed0, openIn0, openOut0;
    var i := 0;
    while i < |lines|
      invariant 0 <= i <= |lines|
      invariant LoadLines(lines[i..], References(closed, openIn, openOut), parse)
             == LoadLines(lines, References(closed0, openIn0, openOut0), parse)
    {
      var segs := Split(lines[i], Sep);
      if |segs| < 2 { return Err(IndexOutOfRange); }
      var x := parse(segs[1]);
      if x.None? { return Err(FormatError); }
      if |segs| < 3 { return Err(IndexOutOfRange); }
      var y := parse(segs[2]);
      if y.None? { return Err(FormatError); }
      if |segs| < 4 { return Err(IndexOutOfRange); }
      var z := parse(segs[3]);
      if z.None? { return Err(FormatError); }
      var v := Vector3(x.value, y.value, z.value);
      if segs[0] == "O" {
        openOut := v;
      } else if segs[0] == "I" {
        openIn := v;
      } else if segs[0] == "C" {
        closed := v;
      }
      assert lines[i..][1..] == lines[i + 1..];
      i := i + 1;
    }
    return Ok(References(closed, openIn, openOut));
  }

  /** Loading a concatenation loads the first part, then the second from where it left off. */
  lemma {:induction false} LoadLinesAppend(a: seq<string>, b: seq<string>, refs: References,
                                           parse: string -> Option<real>)
    ensures LoadLines(a + b, refs, parse) ==
            match LoadLines(a, refs, parse)
            case Err(e) => Err(e)
            case Ok(mid) => LoadLines(b, mid, parse)
    decreases |a|
  {
    if a == [] {
      assert a + b == b;
    } else {
      assert (a + b)[0] == a[0];
      assert (a + b)[1..] == a[1..] + b;
      match LoadLine(a[0], refs, parse)
      case Err(e) =>
      case Ok(next) => LoadLinesAppend(a[1..], b, next, parse);
    }
  }

  /** A line appended after a successful load overrides what earlier lines set for its tag. */
  lemma LaterLineOverwrites(lines: seq<string>, line: string, refs: References,
                            parse: string -> Option<real>, loaded: References, s: FlapState)
    requires LoadLines(lines, refs, parse) == Ok(loaded)
    requires ParseLine(line, parse).Ok? && ParseLine(line, parse).value.0 == TagOf(s)
    ensures LoadLines(lines + [line], refs, parse).Ok?
    ensures RefOf(LoadLines(lines + [line], refs, parse).value, s) == ParseLine(line, parse).value.1
  {
    LoadLinesAppend(lines, [line], refs, parse);
    var (tag, v) := ParseLine(line, parse).value;
    assert LoadLines([line], loaded, parse) == LoadLines([], Assign(tag, v, loaded), parse);
    AssignSlots(tag, v, loaded, s);
  }

  /** A state whose tag heads no line keeps the reference vector it came in with. */
  lemma {:induction false} UnseenTagKeepsValue(lines: seq<string>, refs: References,
                                               parse: string -> Option<real>, s: FlapState)
    requires forall k :: 0 <= k < |lines| ==> Split(lines[k], Sep)[0] != TagOf(s)
    requires LoadLines(lines, refs, parse).Ok?
    ensures RefOf(LoadLines(lines, refs, parse).value, s) == RefOf(refs, s)
    decreases |lines|
  {
    if lines != [] {
      var (tag, v) := ParseLine(lines[0], parse).value;
      AssignSlots(tag, v, refs, s);
      UnseenTagKeepsValue(lines[1..], Assign(tag, v, refs), parse, s);
    }
  }

  /** One line that does not parse fails the whole load, whatever its tag and wherever it stands. */
  lemma {:induction false} BadLineFails(lines: seq<string>, k: nat, refs: References,
                                        parse: string -> Option<real>)
    requires k < |lines| && ParseLine(lines[k], parse).Err?
    ensures LoadLines(lines, refs, parse).Err?
    decreases k
  {
    match LoadLine(lines[0], refs, parse)
    case Err(e) =>
    case Ok(next) =>
      assert k > 0;
      BadLineFails(lines[1..], k - 1, next, parse);
  }

  /** Two adjacent well-formed lines with different tags may be swapped. */
  lemma DistinctTagsCommute(a: seq<string>, l1: string, l2: string, b: seq<string>, refs: References,
                            parse: string -> Option<real>)
    requires ParseLine(l1, parse).Ok? && ParseLine(l2, parse).Ok?
    requires ParseLine(l1, parse).value.0 != ParseLine(l2, parse).value.0
    ensures LoadLines(a + [l1, l2] + b, refs, parse) == LoadLines(a + [l2, l1] + b, refs, parse)
  {
    LoadLinesAppend(a + [l1, l2], b, refs, parse);
    LoadLinesAppend(a + [l2, l1], b, refs, parse);
    LoadLinesAppend(a, [l1, l2], refs, parse);
    LoadLinesAppend(a, [l2, l1], refs, parse);
    match LoadLines(a, refs, parse)
    case Err(e) =>
    case Ok(mid) =>
      var (t1, v1) := ParseLine(l1, parse).value;
      var (t2, v2) := ParseLine(l2, parse).value;
      assert [l1, l2][1..] == [l2] && [l2, l1][1..] == [l1];
      assert [l1][1..] == [] && [l2][1..] == [];
      assert LoadLines([l1, l2], mid, parse) == LoadLines([l2], Assign(t1, v1, mid), parse);
      assert LoadLines([l2], Assign(t1, v1, mid), parse) == Ok(Assign(t2, v2, Assign(t1, v1, mid)));
      assert LoadLines([l2, l1], mid, parse) == LoadLines([l1], Assign(t2, v2, mid), parse);
      assert LoadLines([l1], Assign(t2, v2, mid), parse) == Ok(Assign(t1, v1, Assign(t2, v2, mid)));
  }

  /** The number text format and number parsing agree on `n`, and the text holds no separator. */
  predicate RoundTrips(format: real -> string, parse: string -> Option<real>, n: real)
  {
    parse(format(n)) == Some(n) && Sep !in format(n)
  }

  predicate VectorRoundTrips(format: real -> string, parse: string -> Option<real>, v: Vector3)
  {
    RoundTrips(format, parse, v.x) && RoundTrips(format, parse, v.y) && RoundTrips(format, parse, v.z)
  }

  /**
   * Loading the record that calibration saves restores all three reference vectors exactly,
   * whatever the vectors held before.
   */
  lemma LoadCalibrationRecord(refs: References, initial: References,
                              format: real -> string, parse: string -> Option<real>)
    requires VectorRoundTrips(format, parse, refs.closed)
    requires VectorRoundTrips(format, parse, refs.openOut)
    requires VectorRoundTrips(format, parse, refs.openIn)
    ensures LoadLines(CalibrationRecord(refs, format), initial, parse) == Ok(refs)
  {
    var lines := CalibrationRecord(refs, format);
    RecordShape(refs, format);
    var afterC := initial.(closed := refs.closed);
    var afterO := afterC.(openOut := refs.openOut);
    assert LoadLine(lines[0], initial, parse) == Ok(afterC);
    assert LoadLine(lines[1], afterC, parse) == Ok(afterO);
    assert LoadLine(lines[2], afterO, parse) == Ok(refs);
    assert LoadLines(lines, initial, parse) == LoadLines(lines[1..], afterC, parse);
    assert LoadLines(lines[1..], afterC, parse) == LoadLines(lines[2..], afterO, parse) by {
      assert lines[1..][1..] == lines[2..];
    }
    assert LoadLines(lines[2..], afterO, parse) == LoadLines([], refs, parse) by {
      assert lines[2..][0] == lines[2] && lines[2..][1..] == [];
    }
  }
}
