/**
 * writeTXTfile of ogo_helper.py: the parameters file, one line per item of an
 * OrderedDict, the key and str() of the value separated by a tab.  The file
 * itself (os.chdir, open, write, close) is not modelled: the method returns
 * the text it would write.
 */
module Report {
  import opened OrderedDicts

  /** The kinds of value the calibration script stores in its parameters dictionary. */
  datatype ReportValue =
    | Text(text: string)
    | Number(number: real)
    | Numbers(numbers: seq<real>)      // a Python list of floats
    | NumberArray(values: seq<real>)    // a numpy array

  /**
   * How Python prints a float (its repr) and numpy an array; both are
   * parameters of the model.
   */
  datatype Formats = Formats(showReal: real -> string, showArray: seq<real> -> string)

  /** Python's ", ".join of the shown numbers. */
  function JoinNumbers(xs: seq<real>, showReal: real -> string): string
  {
    if |xs| == 0 then ""
    else if |xs| == 1 then showReal(xs[0])
    else showReal(xs[0]) + ", " + JoinNumbers(xs[1..], showReal)
  }

  /**
   * str() of a stored value: a string is itself, a float its repr, a list its
   * items' reprs in brackets, a numpy array numpy's rendering.
   */
  function Show(v: ReportValue, fmt: Formats): (r: string)
    ensures v.Text? ==> r == v.text
    ensures v.Number? ==> r == fmt.showReal(v.number)
    ensures v.Numbers? ==> (|r| >= 2 && r[0] == '[' && r[|r| - 1] == ']' &&
      r[1..|r| - 1] == JoinNumbers(v.numbers, fmt.showReal))
    ensures v.NumberArray? ==> r == fmt.showArray(v.values)
  {
    match v
    case Text(s) => s
    case Number(x) => fmt.showReal(x)
    case Numbers(xs) => "[" + JoinNumbers(xs, fmt.showReal) + "]"
    case NumberArray(xs) => fmt.showArray(xs)
  }

  /** Formats that print every float and every array on one line. */
  ghost predicate OneLineFormats(fmt: Formats)
  {
    (forall x :: '\n' !in fmt.showReal(x)) && (forall xs :: '\n' !in fmt.showArray(xs))
  }

  /** Joining one-line numbers with ", " gives one line. */
  lemma {:induction false} JoinNumbersOneLine(xs: seq<real>, showReal: real -> string)
    requires forall x :: '\n' !in showReal(x)
    ensures '\n' !in JoinNumbers(xs, showReal)
  {
    if |xs| > 0 {
      var first := xs[0];
      assert '\n' !in showReal(first);
    }
    if |xs| > 1 {
      JoinNumbersOneLine(xs[1..], showReal);
      assert '\n' !in ", ";
    }
  }

  /** A value shown by one-line formats, and a newline-free string, fit on one line. */
  lemma {:induction false} ShowOneLine(v: ReportValue, fmt: Formats)
    requires OneLineFormats(fmt)
    requires v.Text? ==> '\n' !in v.text
    ensures '\n' !in Show(v, fmt)
  {
    if v.Numbers? {
      JoinNumbersOneLine(v.numbers, fmt.showReal);
      assert "[" + JoinNumbers(v.numbers, fmt.showReal) + "]" == Show(v, fmt);
    }
  }

  /** One line of the file. */
  function ReportLine(key: string, shown: string): (r: string)
    ensures |r| == |key| + |shown| + 2
    ensures r[..|key|] == key && r[|key|] == '\t' && r[|key| + 1..|r| - 1] == shown && r[|r| - 1] == '\n'
  {
    key + "\t" + shown + "\n"
  }

  /** The whole file for the items `entries`, in their order. */
  function ReportText(entries: seq<(string, ReportValue)>, fmt: Formats): string
  {
    if |entries| == 0 then ""
    else ReportLine(entries[0].0, Show(entries[0].1, fmt)) + ReportText(entries[1..], fmt)
  }

  /** The loop of writeTXTfile: one write per item of list(d.items()). */
  method WriteTxt(d: OrderedDict<ReportValue>, fmt: Formats) returns (text: string)
    ensures text == ReportText(d.Items(), fmt)
  {
    var items := d.Items();
    text := "";
    var i := 0;
    while i < |items|
      invariant 0 <= i <= |items|
      invariant text + ReportText(items[i..], fmt) == ReportText(items, fmt)
    {
      assert items[i..][1..] == items[i + 1..];
      text := text + ReportLine(items[i].0, Show(items[i].1, fmt));
      i := i + 1;
    }
    assert items[|items|..] == [];
  }

  /** The file of a concatenation of items is the concatenation of their files. */
  lemma {:induction false} ReportTextAppend(a: seq<(string, ReportValue)>, b: seq<(string, ReportValue)>, fmt: Formats)
    ensures ReportText(a + b, fmt) == ReportText(a, fmt) + ReportText(b, fmt)
  {
    if |a| > 0 {
      assert (a + b)[0] == a[0];
      assert (a + b)[1..] == a[1..] + b;
      ReportTextAppend(a[1..], b, fmt);
    } else {
      assert a + b == b;
    }
  }

  /** Position of the first c in s. */
  function Find(s: string, c: char): (r: nat)
    ensures r <= |s|
    ensures forall i :: 0 <= i < r ==> s[i] != c
    ensures r < |s| ==> s[r] == c
  {
    if |s| == 0 || s[0] == c then 0 else 1 + Find(s[1..], c)
  }

  /** The first c of a + [c] + b is the one after a, when a has none. */
  lemma {:induction false} FindAfter(a: string, c: char, b: string)
    requires c !in a
    ensures Find(a + [c] + b, c) == |a|
  {
    var s := a + [c] + b;
    assert s[|a|] == c;
  }

  /**
   * Reading the file back: each line is split at its first tab into key and
   * shown value.  A line without a tab gives an empty value; text after the
   * last newline is ignored.
   */
  function ParseReport(text: string): seq<(string, string)>
    decreases |text|
  {
    var n := Find(text, '\n');
    if n == |text| then []
    else
      var line := text[..n];
      var t := Find(line, '\t');
      [(line[..t], if t < |line| then line[t + 1..] else "")] + ParseReport(text[n + 1..])
  }

  /** One parsed line: a tab-free, newline-free key and a newline-free value come back. */
  lemma {:induction false} ParseLine(key: string, shown: string, rest: string)
    requires '\t' !in key && '\n' !in key && '\n' !in shown
    ensures ParseReport(ReportLine(key, shown) + rest) == [(key, shown)] + ParseReport(rest)
  {
    var text := ReportLine(key, shown) + rest;
    var body := key + "\t" + shown;
    assert '\n' !in body by {
      forall i | 0 <= i < |body| ensures body[i] != '\n' {
        if i < |key| { assert body[i] == key[i]; }
        else if i > |key| { assert body[i] == shown[i - |key| - 1]; }
      }
    }
    assert text == body + ['\n'] + rest;
    FindAfter(body, '\n', rest);
    var n := Find(text, '\n');
    assert n == |body| < |text|;
    var line := text[..n];
    assert line == body;
    assert body == key + ['\t'] + shown;
    FindAfter(key, '\t', shown);
    var t := Find(line, '\t');
    assert t == |key| < |line|;
    assert line[..t] == key;
    assert line[t + 1..] == shown;
    assert text[n + 1..] == rest;
  }

  /** No key holds a tab or newline and no shown value holds a newline. */
  predicate Parsable(entries: seq<(string, ReportValue)>, fmt: Formats)
  {
    forall i :: 0 <= i < |entries| ==>
      '\t' !in entries[i].0 && '\n' !in entries[i].0 && '\n' !in Show(entries[i].1, fmt)
  }

  /** Reading the written file gives back every key with its shown value, in order. */
  lemma {:induction false} ReportRoundTrip(entries: seq<(string, ReportValue)>, fmt: Formats)
    requires Parsable(entries, fmt)
    ensures |ParseReport(ReportText(entries, fmt))| == |entries|
    ensures forall i :: 0 <= i < |entries| ==>
      ParseReport(ReportText(entries, fmt))[i] == (entries[i].0, Show(entries[i].1, fmt))
  {
    if |entries| > 0 {
      var tail := entries[1..];
      assert Parsable(tail, fmt) by {
        forall i | 0 <= i < |tail| ensures '\t' !in tail[i].0 && '\n' !in tail[i].0 && '\n' !in Show(tail[i].1, fmt) {
          assert tail[i] == entries[i + 1];
        }
      }
      ReportRoundTrip(tail, fmt);
      ParseLine(entries[0].0, Show(entries[0].1, fmt), ReportText(tail, fmt));
    }
  }
}
