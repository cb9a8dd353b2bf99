/**
 * A reader, not part of the modelled program, that splits a line back into
 * its fields (every field kept, empty ones included), and the inverse for
 * lines in which every field is followed by the delimiter. The proofs use it
 * to show that a written line loses nothing.
 */
module Text {

  function Split(s: string, sep: char): (parts: seq<string>)
    ensures |parts| >= 1
    decreases |s|
  {
    if |s| == 0 then [""]
    else
      var rest := Split(s[1..], sep);
      if s[0] == sep then [""] + rest else [[s[0]] + rest[0]] + rest[1..]
  }

  /** The fields, each followed by `sep`: "a;b;" for ["a", "b"]. */
  function Terminated(fields: seq<string>, sep: char): (s: string)
  {
    if |fields| == 0 then "" else fields[0] + [sep] + Terminated(fields[1..], sep)
  }

  lemma {:induction false} SplitField(a: string, sep: char, b: string)
    requires sep !in a
    ensures Split(a + [sep] + b, sep) == [a] + Split(b, sep)
    decreases |a|
  {
    var s := a + [sep] + b;
    if |a| == 0 {
      assert s == [sep] + b;
      assert s[1..] == b;
    } else {
      assert s[0] == a[0];
      assert s[1..] == a[1..] + [sep] + b;
      SplitField(a[1..], sep, b);
      assert [a[0]] + a[1..] == a;
    }
  }

  /** Splitting a terminated line gives back its fields, then one empty field. */
  lemma {:induction false} SplitTerminated(fields: seq<string>, sep: char)
    requires forall i :: 0 <= i < |fields| ==> sep !in fields[i]
    ensures Split(Terminated(fields, sep), sep) == fields + [""]
  {
    if |fields| > 0 {
      SplitField(fields[0], sep, Terminated(fields[1..], sep));
      SplitTerminated(fields[1..], sep);
      assert fields == [fields[0]] + fields[1..];
    }
  }
}
