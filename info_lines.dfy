/**
 * The line shapes the status messages are built from, each with a parser
 * that reads it back: a line chosen by a flag, a line carrying an integer,
 * and a line that carries an integer only when a feature is on.  A message
 * is a sequence of such lines; it parses back into the values it shows.
 */
module InfoLines {
  import opened Wrappers
  import opened Strings

  /** Two texts that differ at a position both have: neither is a prefix of the other. */
  predicate Distinct(a: string, b: string) {
    exists i :: 0 <= i < |a| && i < |b| && a[i] != b[i]
  }

  lemma DistinctNotPrefix(a: string, b: string, rest: string)
    requires Distinct(a, b)
    ensures !StartsWith(b + rest, a) && !StartsWith(a + rest, b)
  {
    var i :| 0 <= i < |a| && i < |b| && a[i] != b[i];
    assert (b + rest)[i] == b[i] && (a + rest)[i] == a[i];
  }

  /** `yes` when the flag holds, otherwise `no`. */
  function FlagLine(yes: string, no: string, b: bool): string {
    if b then yes else no
  }

  function ParseFlag(t: string, yes: string, no: string): (r: Option<(bool, string)>)
    ensures r.Some? ==> t == FlagLine(yes, no, r.value.0) + r.value.1
  {
    if StartsWith(t, yes) then Some((true, t[|yes|..]))
    else if StartsWith(t, no) then Some((false, t[|no|..]))
    else None
  }

  lemma FlagLineParses(yes: string, no: string, b: bool, rest: string)
    requires Distinct(yes, no)
    ensures ParseFlag(FlagLine(yes, no, b) + rest, yes, no) == Some((b, rest))
  {
    DistinctNotPrefix(yes, no, rest);
    if b { ExpectConcat(yes, rest); } else { ExpectConcat(no, rest); }
  }

  /** prefix, the decimal integer, suffix. */
  function IntLine(prefix: string, n: int, suffix: string): string {
    prefix + IntToString(n) + suffix
  }

  function ParseIntLine(t: string, prefix: string, suffix: string): (r: Option<(int, string)>)
  {
    var afterPrefix :- Expect(t, prefix);
    var number :- ParseIntPrefix(afterPrefix);
    var afterSuffix :- Expect(number.1, suffix);
    Some((number.0, afterSuffix))
  }

  lemma IntLineParses(prefix: string, n: int, suffix: string, rest: string)
    requires suffix != [] && !IsDigit(suffix[0])
    ensures ParseIntLine(IntLine(prefix, n, suffix) + rest, prefix, suffix) == Some((n, rest))
  {
    var digits := IntToString(n);
    assert IntLine(prefix, n, suffix) + rest == prefix + (digits + (suffix + rest));
    ExpectConcat(prefix, digits + (suffix + rest));
    IntToStringParses(n, suffix + rest);
    ExpectConcat(suffix, rest);
  }

  /** The integer line when a value is present, otherwise the `off` line. */
  function OptionLine(prefix: string, suffix: string, off: string, v: Option<int>): string {
    match v
    case Some(n) => IntLine(prefix, n, suffix)
    case None => off
  }

  function ParseOptionLine(t: string, prefix: string, suffix: string, off: string): Option<(Option<int>, string)>
  {
    if StartsWith(t, prefix) then
      var line :- ParseIntLine(t, prefix, suffix);
      Some((Some(line.0), line.1))
    else
      var afterOff :- Expect(t, off);
      Some((None, afterOff))
  }

  lemma OptionLineParses(prefix: string, suffix: string, off: string, v: Option<int>, rest: string)
    requires Distinct(prefix, off)
    requires suffix != [] && !IsDigit(suffix[0])
    ensures ParseOptionLine(OptionLine(prefix, suffix, off, v) + rest, prefix, suffix, off) == Some((v, rest))
  {
    match v
    case Some(n) =>
      var t := OptionLine(prefix, suffix, off, v) + rest;
      assert t == prefix + (IntToString(n) + suffix + rest);
      ExpectConcat(prefix, IntToString(n) + suffix + rest);
      IntLineParses(prefix, n, suffix, rest);
    case None =>
      DistinctNotPrefix(prefix, off, rest);
      ExpectConcat(off, rest);
  }

  /** The shape of one line of a message. */
  datatype Shape =
    | Flag(yes: string, no: string)
    | Number(prefix: string, suffix: string)
    | Optional(prefix: string, suffix: string, off: string)

  /** The value one line shows. */
  datatype Field = FlagField(b: bool) | NumberField(n: int) | OptionalField(v: Option<int>)

  predicate Fits(sh: Shape, f: Field) {
    match sh
    case Flag(_, _) => f.FlagField?
    case Number(_, _) => f.NumberField?
    case Optional(_, _, _) => f.OptionalField?
  }

  /** The alternatives of a line cannot be confused, and a number ends before its suffix. */
  predicate Unambiguous(sh: Shape) {
    match sh
    case Flag(yes, no) => Distinct(yes, no)
    case Number(_, suffix) => suffix != [] && !IsDigit(suffix[0])
    case Optional(prefix, suffix, off) => Distinct(prefix, off) && suffix != [] && !IsDigit(suffix[0])
  }

  function Line(sh: Shape, f: Field): string
    requires Fits(sh, f)
  {
    match sh
    case Flag(yes, no) => FlagLine(yes, no, f.b)
    case Number(prefix, suffix) => IntLine(prefix, f.n, suffix)
    case Optional(prefix, suffix, off) => OptionLine(prefix, suffix, off, f.v)
  }

  function ParseLine(t: string, sh: Shape): Option<(Field, string)> {
    match sh
    case Flag(yes, no) =>
      var r :- ParseFlag(t, yes, no); Some((FlagField(r.0), r.1))
    case Number(prefix, suffix) =>
      var r :- ParseIntLine(t, prefix, suffix); Some((NumberField(r.0), r.1))
    case Optional(prefix, suffix, off) =>
      var r :- ParseOptionLine(t, prefix, suffix, off); Some((OptionalField(r.0), r.1))
  }

  lemma LineParses(sh: Shape, f: Field, rest: string)
    requires Unambiguous(sh) && Fits(sh, f)
    ensures ParseLine(Line(sh, f) + rest, sh) == Some((f, rest))
  {
    match sh
    case Flag(yes, no) => FlagLineParses(yes, no, f.b, rest);
    case Number(prefix, suffix) => IntLineParses(prefix, f.n, suffix, rest);
    case Optional(prefix, suffix, off) => OptionLineParses(prefix, suffix, off, f.v, rest);
  }

  predicate AllFit(shapes: seq<Shape>, fields: seq<Field>) {
    |shapes| == |fields| && forall i :: 0 <= i < |shapes| ==> Fits(shapes[i], fields[i])
  }

  predicate AllUnambiguous(shapes: seq<Shape>) {
    forall i :: 0 <= i < |shapes| ==> Unambiguous(shapes[i])
  }

  /** The message: its lines one after the other. */
  function Render(shapes: seq<Shape>, fields: seq<Field>): string
    requires AllFit(shapes, fields)
  {
    if shapes == [] then []
    else Line(shapes[0], fields[0]) + Render(shapes[1..], fields[1..])
  }

  /** Reads the lines of a message in order; the message must end with the last one. */
  function ParseLines(t: string, shapes: seq<Shape>): Option<seq<Field>> {
    if shapes == [] then (if t == [] then Some([]) else None)
    else
      var first :- ParseLine(t, shapes[0]);
      var others :- ParseLines(first.1, shapes[1..]);
      Some([first.0] + others)
  }

  /** A message parses back into the values it was rendered from. */
  lemma {:induction false} RenderParses(shapes: seq<Shape>, fields: seq<Field>)
    requires AllFit(shapes, fields) && AllUnambiguous(shapes)
    ensures ParseLines(Render(shapes, fields), shapes) == Some(fields)
  {
    if shapes != [] {
      assert Fits(shapes[0], fields[0]) && Unambiguous(shapes[0]);
      var rest := Render(shapes[1..], fields[1..]);
      LineParses(shapes[0], fields[0], rest);
      RenderParses(shapes[1..], fields[1..]);
      assert [fields[0]] + fields[1..] == fields;
    }
  }

  /** Rendering two groups of lines gives the two texts one after the other. */
  lemma {:induction false} RenderAppend(s1: seq<Shape>, f1: seq<Field>, s2: seq<Shape>, f2: seq<Field>)
    requires AllFit(s1, f1) && AllFit(s2, f2)
    ensures AllFit(s1 + s2, f1 + f2)
    ensures Render(s1 + s2, f1 + f2) == Render(s1, f1) + Render(s2, f2)
  {
    assert AllFit(s1 + s2, f1 + f2) by {
      forall i | 0 <= i < |s1 + s2| ensures Fits((s1 + s2)[i], (f1 + f2)[i]) {
        if i < |s1| {
          assert Fits(s1[i], f1[i]);
        } else {
          assert Fits(s2[i - |s1|], f2[i - |s1|]);
        }
      }
    }
    if s1 != [] {
      assert (s1 + s2)[1..] == s1[1..] + s2;
      assert (f1 + f2)[1..] == f1[1..] + f2;
      RenderAppend(s1[1..], f1[1..], s2, f2);
    } else {
      assert s1 + s2 == s2 && f1 + f2 == f2;
    }
  }

  /** A message begins with its first line. */
  lemma RenderStartsWithFirst(shapes: seq<Shape>, fields: seq<Field>)
    requires AllFit(shapes, fields) && shapes != []
    ensures StartsWith(Render(shapes, fields), Line(shapes[0], fields[0]))
  {
    var first := Line(shapes[0], fields[0]);
    assert Render(shapes, fields)[..|first|] == first;
  }

  /** A message ends with its last line. */
  lemma {:induction false} RenderEndsWithLast(shapes: seq<Shape>, fields: seq<Field>)
    requires AllFit(shapes, fields) && shapes != []
    ensures EndsWith(Render(shapes, fields), Line(shapes[|shapes| - 1], fields[|fields| - 1]))
  {
    var last := Line(shapes[|shapes| - 1], fields[|fields| - 1]);
    if |shapes| == 1 {
      assert Render(shapes, fields) == last + [];
    } else {
      var s1, f1 := shapes[1..], fields[1..];
      assert AllFit(s1, f1) by {
        forall i | 0 <= i < |s1| ensures Fits(s1[i], f1[i]) {
          assert s1[i] == shapes[i + 1] && f1[i] == fields[i + 1];
        }
      }
      assert s1[|s1| - 1] == shapes[|shapes| - 1] && f1[|f1| - 1] == fields[|fields| - 1];
      RenderEndsWithLast(s1, f1);
      EndsWithExtend(Line(shapes[0], fields[0]), Render(s1, f1), last);
    }
  }

  /** A message of one line is that line. */
  lemma RenderOne(sh: Shape, f: Field)
    requires Fits(sh, f)
    ensures AllFit([sh], [f]) && Render([sh], [f]) == Line(sh, f)
  {
    assert Render([sh][1..], [f][1..]) == [];
  }

  /** Rendering three groups of lines gives the three texts one after the other. */
  lemma RenderThree(s1: seq<Shape>, f1: seq<Field>, s2: seq<Shape>, f2: seq<Field>, s3: seq<Shape>, f3: seq<Field>)
    requires AllFit(s1, f1) && AllFit(s2, f2) && AllFit(s3, f3)
    ensures AllFit(s1 + s2 + s3, f1 + f2 + f3)
    ensures Render(s1 + s2 + s3, f1 + f2 + f3) == Render(s1, f1) + Render(s2, f2) + Render(s3, f3)
  {
    RenderAppend(s1, f1, s2, f2);
    RenderAppend(s1 + s2, f1 + f2, s3, f3);
  }
}
