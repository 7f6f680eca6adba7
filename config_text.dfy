/**
 * The textual shape of the files the calculation writes: every line of the
 * `.mkm` configuration file (and the templated line of the driver script) is
 * an assignment `name = rhs \n`, with a space before the newline. A string
 * setting is written single-quoted; every other value is written with
 * Python's own textual rendering, which this model does not reproduce: it is
 * a parameter of every operation that renders.
 */
module ConfigText {
  import opened Wrappers

  /** An IEEE-754 binary64 number, kept as its bit pattern (no arithmetic is modelled). */
  type Float64 = bv64

  /** A Python value held by one of the calculation's input nodes. */
  datatype Value =
    | Int(i: int)
    | Float(bits: Float64)
    | Str(s: string)
    | Bool(b: bool)
    | NoneValue
    | List(items: seq<Value>)
    | Dict(entries: seq<(string, Value)>)

  /** Python's `str` of a value inside an f-string, left uninterpreted. */
  type Renderer = Value -> string

  function Quoted(s: string): string {
    "'" + s + "'"
  }

  /** One written line: `name = rhs \n`. */
  function Assign(name: string, rhs: string): string {
    name + " = " + rhs + " \n"
  }

  /** A variable name as the configuration file uses it: non-empty, without spaces. */
  type Key = n: string | n != [] && ' ' !in n witness "k"

  /** A setting before it is written: the variable it assigns and the text on the right. */
  datatype Setting = Setting(name: Key, rhs: string)

  /** The lines that write the given settings, one line per setting, in order. */
  function Lines(ss: seq<Setting>): (file: seq<string>)
    ensures |file| == |ss|
  {
    seq(|ss|, k requires 0 <= k < |ss| => Assign(ss[k].name, ss[k].rhs))
  }

  /** The variable names the settings assign, in order. */
  function Names(ss: seq<Setting>): (ns: seq<string>)
    ensures |ns| == |ss|
  {
    seq(|ss|, k requires 0 <= k < |ss| => ss[k].name)
  }

  lemma LinesAppend(a: seq<Setting>, b: seq<Setting>)
    ensures Lines(a + b) == Lines(a) + Lines(b)
  {
    assert forall k :: 0 <= k < |a + b| ==> (a + b)[k] == if k < |a| then a[k] else b[k - |a|];
  }

  lemma NamesAppend(a: seq<Setting>, b: seq<Setting>)
    ensures Names(a + b) == Names(a) + Names(b)
  {
    assert forall k :: 0 <= k < |a + b| ==> (a + b)[k] == if k < |a| then a[k] else b[k - |a|];
  }

  predicate StartsWith(line: string, prefix: string) {
    |prefix| <= |line| && line[..|prefix|] == prefix
  }

  /** Every written line starts with its variable, ` = `, and ends with a space and a newline. */
  lemma LineShape(ss: seq<Setting>)
    ensures forall k :: 0 <= k < |ss| ==> StartsWith(Lines(ss)[k], Names(ss)[k] + " = ")
    ensures forall k :: 0 <= k < |ss| ==> EndsWith(Lines(ss)[k], " \n")
  {
    forall k | 0 <= k < |ss|
      ensures StartsWith(Lines(ss)[k], Names(ss)[k] + " = ") && EndsWith(Lines(ss)[k], " \n")
    {
      var line, n := Lines(ss)[k], ss[k].name;
      assert line == (n + " = ") + (ss[k].rhs + " \n");
      assert line[..|n + " = "|] == n + " = ";
      assert line[|line| - 2..] == " \n";
    }
  }

  predicate EndsWith(line: string, suffix: string) {
    |suffix| <= |line| && line[|line| - |suffix|..] == suffix
  }

  /** Some line of the file assigns the variable `name`. */
  predicate Mentions(file: seq<string>, name: string) {
    exists k :: 0 <= k < |file| && StartsWith(file[k], name + " = ")
  }

  /** A line assigning `n2` starts like an assignment to `n1` only when the names are equal. */
  lemma KeyPrefixUnique(n1: Key, n2: Key, rhs: string)
    ensures StartsWith(Assign(n2, rhs), n1 + " = ") <==> n1 == n2
  {
    var line := Assign(n2, rhs);
    var prefix := n1 + " = ";
    assert line[..|n2|] == n2 && line[|n2|] == ' ';
    assert prefix[..|n1|] == n1 && prefix[|n1|] == ' ';
    if n1 == n2 {
      assert line[..|prefix|] == prefix;
    }
  }

  /** On the written file, "some line assigns `n`" means exactly that some setting is named `n`. */
  lemma MentionsIffNamed(ss: seq<Setting>, n: Key)
    ensures Mentions(Lines(ss), n) <==> n in Names(ss)
  {
    var file := Lines(ss);
    if Mentions(file, n) {
      var k :| 0 <= k < |file| && StartsWith(file[k], n + " = ");
      KeyPrefixUnique(n, ss[k].name, ss[k].rhs);
      assert Names(ss)[k] == n;
    }
    if n in Names(ss) {
      var k :| 0 <= k < |ss| && Names(ss)[k] == n;
      KeyPrefixUnique(n, ss[k].name, ss[k].rhs);
      assert StartsWith(file[k], n + " = ");
    }
  }

  /**
   * Reads back the value of a quoted string setting: for a line written as
   * `name = '<v>' \n` this is `Some(v)`, for any other line `None`.
   */
  function QuotedValue(line: string, name: string): (v: Option<string>)
    ensures v.Some? ==> line == Assign(name, Quoted(v.value))
  {
    var head := name + " = '";
    var tail := "' \n";
    if |head| + |tail| <= |line| && line[..|head|] == head && line[|line| - |tail|..] == tail
    then
      var v := line[|head|..|line| - |tail|];
      assert line == line[..|head|] + v + line[|line| - |tail|..];
      Some(v)
    else None
  }

  /** Writing a quoted setting and reading it back gives the written string. */
  lemma QuotedRoundTrip(name: string, v: string)
    ensures QuotedValue(Assign(name, Quoted(v)), name) == Some(v)
  {
    var line := Assign(name, Quoted(v));
    var head := name + " = '";
    assert line == head + v + "' \n";
    assert line[..|head|] == head;
    assert line[|line| - 3..] == "' \n";
    assert line[|head|..|line| - 3] == v;
  }

  /**
   * One write is one line of text exactly when neither the name nor the
   * written value holds a newline: the only newline is then the final one.
   */
  lemma OneTextLine(name: string, rhs: string)
    ensures var line := Assign(name, rhs);
      && |line| > 0 && line[|line| - 1] == '\n'
      && ((forall k :: 0 <= k < |line| - 1 ==> line[k] != '\n') <==> '\n' !in name && '\n' !in rhs)
  {
    var line := Assign(name, rhs);
    assert line == name + " = " + rhs + " \n";
    assert forall k :: 0 <= k < |name| ==> line[k] == name[k];
    assert forall k :: 0 <= k < |rhs| ==> line[|name| + 3 + k] == rhs[k];
    assert line[|name|] == ' ' && line[|name| + 1] == '=' && line[|name| + 2] == ' ';
    assert line[|line| - 2] == ' ';
  }

  /** Quoting neither adds nor removes a newline. */
  lemma QuotedNewlines(s: string)
    ensures '\n' in Quoted(s) <==> '\n' in s
  {
    assert Quoted(s) == "'" + s + "'";
    assert forall k :: 0 <= k < |s| ==> Quoted(s)[k + 1] == s[k];
  }
}
