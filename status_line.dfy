/**
 * The one-line weather status: the colour table, `color` and `formatWData`
 * of ansiweather.go.  The shell flag (`-shell`) is a parameter here.
 */
module StatusLine {
  import opened Wrappers

  /** The weather record handed to the formatter (ansiweather.go:36-41). */
  datatype WData = WData(city: string, conditions: string, humidity: string, temp: string)

  /** The colour table: each key names an ANSI SGR escape sequence. */
  const Colors: map<string, string> := map[
    "clear" := "\U{1B}[0m",
    "dash" := "\U{1B}[34m",
    "data" := "\U{1B}[33;1m",
    "delim" := "\U{1B}[35m",
    "text" := "\U{1B}[36;1m"
  ]

  /**
   * `color`: the escape code for `key`, wrapped in `%{`...`%}` in shell mode
   * so that the shell leaves it out of the prompt's width.  None is
   * `color`'s panic on a key missing from the table.
   */
  function Color(key: string, shell: bool): (r: Option<string>)
    ensures r.Some? <==> key in Colors
    ensures r.Some? && !shell ==> r.value == Colors[key]
    ensures r.Some? && shell ==> r.value == "%{" + Colors[key] + "%}"
  {
    if key !in Colors then None
    else if shell then Some("%{" + Colors[key] + "%}")
    else Some(Colors[key])
  }

  /** The code of a key known to be in the table. */
  function Code(key: string, shell: bool): (r: string)
    requires key in Colors
    ensures Color(key, shell) == Some(r)
  {
    Color(key, shell).value
  }

  /** The first character of every code: `%` in shell mode, ESC otherwise. */
  function Lead(shell: bool): char
  {
    if shell then '%' else '\U{1B}'
  }

  /** `formatWData`: the status line built piece by piece, in the order its pieces are appended to `res`. */
  function FormatWData(d: WData, shell: bool): (r: string)
    ensures Code("text", shell) + d.city <= r
    ensures |r| >= |Code("clear", shell)| && r[|r| - |Code("clear", shell)|..] == Code("clear", shell)
  {
    Code("text", shell) + d.city
    + Code("delim", shell) + ":"
    + Code("data", shell) + " " + d.temp + " "
    + Code("dash", shell) + ","
    + Code("text", shell) + " Humidity"
    + Code("delim", shell) + ":"
    + Code("data", shell) + " " + d.humidity
    + (if shell then "%" else "")
    + Code("clear", shell)
  }

  // The constant stretches of the line around the displayed fields.

  function Head(shell: bool): string
  {
    Code("text", shell)
  }

  function Mid(shell: bool): string
  {
    Code("delim", shell) + ":" + Code("data", shell) + " "
  }

  function Middle(shell: bool): string
  {
    Code("dash", shell) + "," + Code("text", shell) + " Humidity"
    + Code("delim", shell) + ":" + Code("data", shell) + " "
  }

  function Tail(shell: bool): string
  {
    (if shell then "%" else "") + Code("clear", shell)
  }

  /** A line assembled from the stretches and the fields, grouped from the right. */
  function Join(f: Fields, head: string, mid: string, middle: string, tail: string): string
  {
    head + (f.city + (mid + ((f.temp + " ") + (middle + (f.humidity + tail)))))
  }

  /** The fields a status line displays; the conditions are not shown. */
  datatype Fields = Fields(city: string, temp: string, humidity: string)

  /** The line is the three displayed fields between constant stretches. */
  lemma FormatLayout(d: WData, shell: bool)
    ensures FormatWData(d, shell)
      == Join(Fields(d.city, d.temp, d.humidity), Head(shell), Mid(shell), Middle(shell), Tail(shell))
  {
    Regroup(Code("text", shell), Code("delim", shell), Code("data", shell), Code("dash", shell),
      if shell then "%" else "", Code("clear", shell), d.city, d.temp, d.humidity);
  }

  lemma Regroup(text: string, delim: string, data: string, dash: string, percent: string, clear: string,
                city: string, temp: string, humidity: string)
    ensures text + city + delim + ":" + data + " " + temp + " " + dash + "," + text + " Humidity"
            + delim + ":" + data + " " + humidity + percent + clear
         == text + (city + ((delim + ":" + data + " ") + ((temp + " ")
            + ((dash + "," + text + " Humidity" + delim + ":" + data + " ") + (humidity + (percent + clear))))))
  {
  }

  /** Position of the first `c` in `s`, or `|s|` when there is none. */
  function IndexOf(s: string, c: char): (i: nat)
    ensures i <= |s|
    ensures forall k :: 0 <= k < i ==> s[k] != c
    ensures i < |s| ==> s[i] == c
  {
    if s == [] || s[0] == c then 0 else 1 + IndexOf(s[1..], c)
  }

  /** `s` without the prefix `p`, if it starts with `p`. */
  function Strip(s: string, p: string): Option<string>
  {
    if p <= s then Some(s[|p|..]) else None
  }

  /** `s` without the suffix `t`, if it ends with `t`. */
  function StripTail(s: string, t: string): Option<string>
  {
    if |t| <= |s| && s[|s| - |t|..] == t then Some(s[..|s| - |t|]) else None
  }

  /** `s` cut before its first `c`. */
  function Cut(s: string, c: char): (string, string)
  {
    var i := IndexOf(s, c);
    (s[..i], s[i..])
  }

  lemma StripJoin(p: string, r: string)
    ensures Strip(p + r, p) == Some(r)
  {
    assert (p + r)[|p|..] == r;
  }

  lemma JoinStrip(s: string, p: string, r: string)
    requires Strip(s, p) == Some(r)
    ensures s == p + r
  {
    assert s == s[..|p|] + s[|p|..];
  }

  lemma StripTailJoin(a: string, t: string)
    ensures StripTail(a + t, t) == Some(a)
  {
    assert (a + t)[|a|..] == t;
    assert (a + t)[..|a|] == a;
  }

  lemma JoinStripTail(s: string, t: string, a: string)
    requires StripTail(s, t) == Some(a)
    ensures s == a + t
  {
    assert s == s[..|s| - |t|] + s[|s| - |t|..];
  }

  lemma CutJoin(a: string, b: string, c: char)
    requires c !in a && b != [] && b[0] == c
    ensures Cut(a + b, c) == (a, b)
  {
    assert (a + b)[|a|] == c;
    var i := IndexOf(a + b, c);
    assert i == |a|;
    assert (a + b)[..i] == a;
    assert (a + b)[i..] == b;
  }

  lemma JoinCut(s: string, c: char)
    ensures c !in Cut(s, c).0
    ensures Cut(s, c).0 + Cut(s, c).1 == s
  {
    var i := IndexOf(s, c);
    assert s == s[..i] + s[i..];
  }

  /**
   * Cuts a line of the shape Join(f, head, mid, middle, tail) apart: the city
   * runs up to the next `lead`, the temperature up to the space before the
   * next `lead`, and the humidity up to the tail.
   */
  function Split(s: string, lead: char, head: string, mid: string, middle: string, tail: string): Option<Fields>
  {
    match Strip(s, head)
    case None => None
    case Some(s1) =>
      var (city, s2) := Cut(s1, lead);
      match Strip(s2, mid)
      case None => None
      case Some(s3) =>
        var (spaced, s4) := Cut(s3, lead);
        match StripTail(spaced, " ")
        case None => None
        case Some(temp) =>
          match Strip(s4, middle)
          case None => None
          case Some(s5) =>
            match StripTail(s5, tail)
            case None => None
            case Some(humidity) => Some(Fields(city, temp, humidity))
  }

  lemma {:induction false} SplitJoin(f: Fields, lead: char, head: string, mid: string, middle: string, tail: string)
    requires lead != ' ' && lead !in f.city && lead !in f.temp
    requires |mid| > 0 && mid[0] == lead
    requires |middle| > 0 && middle[0] == lead
    ensures Split(Join(f, head, mid, middle, tail), lead, head, mid, middle, tail) == Some(f)
  {
    var s5 := f.humidity + tail;
    var s4 := middle + s5;
    var s3 := (f.temp + " ") + s4;
    var s2 := mid + s3;
    var s1 := f.city + s2;
    StripJoin(head, s1);
    CutJoin(f.city, s2, lead);
    StripJoin(mid, s3);
    assert lead !in f.temp + " ";
    CutJoin(f.temp + " ", s4, lead);
    StripTailJoin(f.temp, " ");
    StripJoin(middle, s5);
    StripTailJoin(f.humidity, tail);
  }

  lemma {:induction false} JoinSplit(s: string, f: Fields, lead: char, head: string, mid: string, middle: string, tail: string)
    requires Split(s, lead, head, mid, middle, tail) == Some(f)
    ensures lead !in f.city && lead !in f.temp
    ensures s == Join(f, head, mid, middle, tail)
  {
    var s1 := Strip(s, head).value;
    JoinStrip(s, head, s1);
    var (city, s2) := Cut(s1, lead);
    JoinCut(s1, lead);
    var s3 := Strip(s2, mid).value;
    JoinStrip(s2, mid, s3);
    var (spaced, s4) := Cut(s3, lead);
    JoinCut(s3, lead);
    var temp := StripTail(spaced, " ").value;
    JoinStripTail(spaced, " ", temp);
    var s5 := Strip(s4, middle).value;
    JoinStrip(s4, middle, s5);
    var humidity := StripTail(s5, tail).value;
    JoinStripTail(s5, tail, humidity);
    assert f == Fields(city, temp, humidity);
  }

  /** Reads the displayed fields back out of a status line. */
  function ParseStatusLine(s: string, shell: bool): (r: Option<Fields>)
  {
    Split(s, Lead(shell), Head(shell), Mid(shell), Middle(shell), Tail(shell))
  }

  /** Every code begins with the lead character of its mode. */
  lemma CodeStartsWithLead(key: string, shell: bool)
    requires key in Colors
    ensures |Code(key, shell)| > 0 && Code(key, shell)[0] == Lead(shell)
  {
  }

  /** The shell-mode code of a key is its plain escape sequence inside `%{`...`%}`. */
  lemma ShellWrapsCode(key: string)
    requires key in Colors
    ensures Code(key, true) == "%{" + Code(key, false) + "%}"
    ensures Code(key, false)[0] == '\U{1B}'
  {
  }

  lemma StretchesStartWithCode(shell: bool)
    ensures Lead(shell) != ' '
    ensures |Mid(shell)| > 0 && Mid(shell)[0] == Lead(shell)
    ensures |Middle(shell)| > 0 && Middle(shell)[0] == Lead(shell)
  {
  }

  /**
   * Parsing undoes formatting: the displayed fields come back unchanged
   * whenever the city and temperature hold no code lead character.
   */
  lemma ParseFormat(d: WData, shell: bool)
    requires Lead(shell) !in d.city && Lead(shell) !in d.temp
    ensures ParseStatusLine(FormatWData(d, shell), shell) == Some(Fields(d.city, d.temp, d.humidity))
  {
    FormatLayout(d, shell);
    StretchesStartWithCode(shell);
    SplitJoin(Fields(d.city, d.temp, d.humidity), Lead(shell), Head(shell), Mid(shell), Middle(shell), Tail(shell));
  }

  /**
   * Every line the parser accepts is exactly the status line of the fields
   * it returns, so the parser is the formatter's inverse on its whole domain.
   */
  lemma FormatParse(s: string, shell: bool, f: Fields, conditions: string)
    requires ParseStatusLine(s, shell) == Some(f)
    ensures Lead(shell) !in f.city && Lead(shell) !in f.temp
    ensures FormatWData(WData(f.city, conditions, f.humidity, f.temp), shell) == s
  {
    FormatLayout(WData(f.city, conditions, f.humidity, f.temp), shell);
    JoinSplit(s, f, Lead(shell), Head(shell), Mid(shell), Middle(shell), Tail(shell));
  }

  /**
   * Shell mode lengthens the line by exactly 33 characters: four for the
   * `%{`...`%}` around each of the eight codes and one for the `%` after
   * the humidity.
   */
  lemma ShellModeLength(d: WData)
    ensures |FormatWData(d, true)| == |FormatWData(d, false)| + 33
  {
    var f := Fields(d.city, d.temp, d.humidity);
    FormatLayout(d, true);
    FormatLayout(d, false);
    assert |Head(true)| == |Head(false)| + 4;
    assert |Mid(true)| == |Mid(false)| + 8;
    assert |Middle(true)| == |Middle(false)| + 16;
    assert |Tail(true)| == |Tail(false)| + 5;
  }

  lemma {:induction false} LastBeforeTail(pre: string, humidity: string, percent: string, clear: string)
    requires pre != [] && pre[|pre| - 1] == ' ' && (percent == "" || percent == "%")
    ensures |pre + (humidity + (percent + clear))| > |clear|
    ensures var r := pre + (humidity + (percent + clear));
            (r[|r| - |clear| - 1] == '%') <==> (percent == "%" || (humidity != [] && humidity[|humidity| - 1] == '%'))
  {
    var r := pre + (humidity + (percent + clear));
    var n := |r| - |clear|;
    if percent == "%" {
      assert r[n - 1] == percent[0];
    } else if humidity != [] {
      assert r[n - 1] == humidity[|humidity| - 1];
    } else {
      assert r[n - 1] == pre[|pre| - 1];
    }
  }

  /**
   * The character just before the closing clear code is a `%` exactly when
   * shell mode is on or the humidity itself ends in `%` (as the service's
   * relative humidity, such as "65%", does).
   */
  lemma PercentBeforeClear(d: WData, shell: bool)
    ensures |FormatWData(d, shell)| > |Code("clear", shell)|
    ensures var r := FormatWData(d, shell);
            (r[|r| - |Code("clear", shell)| - 1] == '%') <==> (shell || (d.humidity != [] && d.humidity[|d.humidity| - 1] == '%'))
  {
    FormatLayout(d, shell);
    var head, mid, middle := Head(shell), Mid(shell), Middle(shell);
    var percent, clear := if shell then "%" else "", Code("clear", shell);
    var pre := head + (d.city + (mid + ((d.temp + " ") + middle)));
    assert Join(Fields(d.city, d.temp, d.humidity), head, mid, middle, Tail(shell))
        == pre + (d.humidity + (percent + clear));
    assert middle[|middle| - 1] == ' ';
    LastBeforeTail(pre, d.humidity, percent, clear);
  }
}
