/** The text of the calibration file `states.max`: `;`-separated fields, one record per line. */
module Records {
  import opened Types

  const Sep: char := ';'

  /**
   * `String.Split`: the fields between separators, empty ones included, so a string with
   * n separators has n + 1 fields.
   */
  function Split(s: string, sep: char): (fields: seq<string>)
    ensures |fields| >= 1
    ensures forall k :: 0 <= k < |fields| ==> sep !in fields[k]
    decreases |s|
  {
    if s == [] then [""]
    else
      var rest := Split(s[1..], sep);
      if s[0] == sep then [""] + rest
      else [[s[0]] + rest[0]] + rest[1..]
  }

  /** The fields joined with one separator between each pair. */
  function Join(fields: seq<string>, sep: char): string
    requires |fields| >= 1
    decreases |fields|
  {
    if |fields| == 1 then fields[0] else fields[0] + [sep] + Join(fields[1..], sep)
  }

  lemma {:induction false} SplitNoSeparator(s: string, sep: char)
    requires sep !in s
    ensures Split(s, sep) == [s]
    decreases |s|
  {
    if s != [] {
      SplitNoSeparator(s[1..], sep);
      assert [s[0]] + s[1..] == s;
    }
  }

  /** A field free of separators, a separator, then the rest: the field comes off the front. */
  lemma {:induction false} SplitFirstField(a: string, b: string, sep: char)
    requires sep !in a
    ensures Split(a + [sep] + b, sep) == [a] + Split(b, sep)
    decreases |a|
  {
    if a == [] {
      assert a + [sep] + b == [sep] + b;
      assert ([sep] + b)[1..] == b;
    } else {
      SplitFirstField(a[1..], b, sep);
      assert (a + [sep] + b)[1..] == a[1..] + [sep] + b;
      assert [a[0]] + a[1..] == a;
    }
  }

  /** Splitting undoes joining, when no field holds the separator. */
  lemma {:induction false} SplitJoin(fields: seq<string>, sep: char)
    requires |fields| >= 1
    requires forall k :: 0 <= k < |fields| ==> sep !in fields[k]
    ensures Split(Join(fields, sep), sep) == fields
    decreases |fields|
  {
    if |fields| == 1 {
      SplitNoSeparator(fields[0], sep);
    } else {
      SplitJoin(fields[1..], sep);
      SplitFirstField(fields[0], Join(fields[1..], sep), sep);
      assert [fields[0]] + fields[1..] == fields;
    }
  }

  /** Joining undoes splitting, for every string. */
  lemma {:induction false} JoinSplit(s: string, sep: char)
    ensures Join(Split(s, sep), sep) == s
    decreases |s|
  {
    if s != [] {
      JoinSplit(s[1..], sep);
      var rest := Split(s[1..], sep);
      if s[0] == sep {
        assert Join([""] + rest, sep) == [sep] + Join(rest, sep) by {
          assert ([""] + rest)[1..] == rest;
        }
        assert [s[0]] + s[1..] == s;
      } else {
        var fields := [[s[0]] + rest[0]] + rest[1..];
        if |rest| == 1 {
          assert Join(rest, sep) == rest[0];
        } else {
          assert fields[1..] == rest[1..];
          assert Join(rest, sep) == rest[0] + [sep] + Join(rest[1..], sep);
        }
        assert [s[0]] + s[1..] == s;
      }
    }
  }

  /** One line `tag;x;y;z`, as `String.Format("C;{0};{1};{2}", v.X, v.Y, v.Z)` writes it. */
  function FormatLine(tag: string, v: Vector3, format: real -> string): string
  {
    tag + ";" + format(v.x) + ";" + format(v.y) + ";" + format(v.z)
  }

  /** The lines the calibration writes to `states.max`, in the order C, O, I. */
  function CalibrationRecord(refs: References, format: real -> string): seq<string>
  {
    [FormatLine("C", refs.closed, format),
     FormatLine("O", refs.openOut, format),
     FormatLine("I", refs.openIn, format)]
  }

  /** No component of `v` is written with a separator in it. */
  predicate SeparatorFree(v: Vector3, format: real -> string)
  {
    Sep !in format(v.x) && Sep !in format(v.y) && Sep !in format(v.z)
  }

  /** A formatted line splits back into its tag and its three formatted components. */
  lemma FormatLineFields(tag: string, v: Vector3, format: real -> string)
    requires Sep !in tag && SeparatorFree(v, format)
    ensures Split(FormatLine(tag, v, format), Sep) == [tag, format(v.x), format(v.y), format(v.z)]
  {
    var fields := [tag, format(v.x), format(v.y), format(v.z)];
    calc {
      Join(fields, Sep);
      tag + [Sep] + Join(fields[1..], Sep);
      { assert fields[1..][1..] == [format(v.y), format(v.z)]; }
      tag + [Sep] + (format(v.x) + [Sep] + Join([format(v.y), format(v.z)], Sep));
      { assert [format(v.y), format(v.z)][1..] == [format(v.z)]; }
      tag + [Sep] + (format(v.x) + [Sep] + (format(v.y) + [Sep] + format(v.z)));
      FormatLine(tag, v, format);
    }
    SplitJoin(fields, Sep);
  }

  /**
   * The calibration record is exactly three lines, tagged C, O and I in that order, each of
   * four fields: the tag and the three formatted components of its vector.
   */
  lemma RecordShape(refs: References, format: real -> string)
    requires SeparatorFree(refs.closed, format)
    requires SeparatorFree(refs.openOut, format)
    requires SeparatorFree(refs.openIn, format)
    ensures |CalibrationRecord(refs, format)| == 3
    ensures Split(CalibrationRecord(refs, format)[0], Sep)
         == ["C", format(refs.closed.x), format(refs.closed.y), format(refs.closed.z)]
    ensures Split(CalibrationRecord(refs, format)[1], Sep)
         == ["O", format(refs.openOut.x), format(refs.openOut.y), format(refs.openOut.z)]
    ensures Split(CalibrationRecord(refs, format)[2], Sep)
         == ["I", format(refs.openIn.x), format(refs.openIn.y), format(refs.openIn.z)]
  {
    FormatLineFields("C", refs.closed, format);
    FormatLineFields("O", refs.openOut, format);
    FormatLineFields("I", refs.openIn, format);
  }
}
