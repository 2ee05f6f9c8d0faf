/**
 * String helpers used by the job-file and data-set readers: whitespace and
 * digit tests, ASCII case mapping, boolean words, and the comma-separated
 * line splitter with its quoting rules.
 */
module StringUtils {
  import opened Wrappers

  /** The directory separator: a backslash on Windows builds, a slash elsewhere. */
  function PathSeparator(windows: bool): char
  {
    if windows then '\\' else '/'
  }

  predicate IsWhiteSpace(c: char)
  {
    c == ' ' || c == '\t' || c == '\n' || c == '\r'
  }

  predicate IsDigit(c: char) { '0' <= c <= '9' }

  predicate IsUpperLetter(c: char) { 'A' <= c <= 'Z' }

  predicate IsLowerLetter(c: char) { 'a' <= c <= 'z' }

  /** tolower in the C locale: upper-case ASCII letters map to lower case, everything else is kept. */
  function Lower(c: char): char
  {
    if IsUpperLetter(c) then (c as int + 32) as char else c
  }

  /** toupper in the C locale. */
  function Upper(c: char): char
  {
    if IsLowerLetter(c) then (c as int - 32) as char else c
  }

  function LowerAll(s: string): (r: string)
    ensures |r| == |s| && forall i | 0 <= i < |s| :: r[i] == Lower(s[i])
  {
    seq(|s|, i requires 0 <= i < |s| => Lower(s[i]))
  }

  function UpperAll(s: string): (r: string)
    ensures |r| == |s| && forall i | 0 <= i < |s| :: r[i] == Upper(s[i])
  {
    seq(|s|, i requires 0 <= i < |s| => Upper(s[i]))
  }

  /** Lower-casing leaves no upper-case letter, and lower-casing again changes nothing. */
  lemma LowerAllIsLowerCase(s: string)
    ensures forall i | 0 <= i < |s| :: !IsUpperLetter(LowerAll(s)[i])
    ensures LowerAll(LowerAll(s)) == LowerAll(s)
  {
    assert forall i | 0 <= i < |s| :: Lower(Lower(s[i])) == Lower(s[i]);
  }

  /** Case does not matter to lower-casing: an upper-cased string lowers to the same text. */
  lemma LowerIgnoresCase(s: string)
    ensures LowerAll(UpperAll(s)) == LowerAll(s)
  {
    assert forall i | 0 <= i < |s| :: Lower(Upper(s[i])) == Lower(s[i]);
  }

  /** ToLower on a std::string, in place: same length, every character mapped. */
  method ToLower(s: array<char>)
    modifies s
    ensures s[..] == LowerAll(old(s[..]))
  {
    var i := 0;
    while i < s.Length
      invariant 0 <= i <= s.Length
      invariant forall k | 0 <= k < i :: s[k] == Lower(old(s[k]))
      invariant forall k | i <= k < s.Length :: s[k] == old(s[k])
    {
      s[i] := Lower(s[i]);
      i := i + 1;
    }
  }

  /** ToUpper on a std::string, in place. */
  method ToUpper(s: array<char>)
    modifies s
    ensures s[..] == UpperAll(old(s[..]))
  {
    var i := 0;
    while i < s.Length
      invariant 0 <= i <= s.Length
      invariant forall k | 0 <= k < i :: s[k] == Upper(old(s[k]))
      invariant forall k | i <= k < s.Length :: s[k] == old(s[k])
    {
      s[i] := Upper(s[i]);
      i := i + 1;
    }
  }

  /** The length of a NUL-terminated string: the index of its first NUL. */
  function StrLen(s: seq<char>, from: nat): (n: nat)
    requires from <= |s| && exists k | from <= k < |s| :: s[k] == '\0'
    ensures from <= n < |s| && s[n] == '\0' && forall k | from <= k < n :: s[k] != '\0'
    decreases |s| - from
  {
    if s[from] == '\0' then from else StrLen(s, from + 1)
  }

  /** ToLower on a NUL-terminated buffer: rewrites the characters before the first NUL, and only those. */
  method ToLowerCString(s: array<char>)
    requires exists k | 0 <= k < s.Length :: s[k] == '\0'
    modifies s
    ensures var n := StrLen(old(s[..]), 0);
      s[..n] == LowerAll(old(s[..n])) && s[n..] == old(s[n..])
  {
    ghost var n := StrLen(s[..], 0);
    var i := 0;
    while s[i] != '\0'
      invariant 0 <= i <= n
      invariant forall k | 0 <= k < i :: s[k] == Lower(old(s[k]))
      invariant forall k | i <= k < s.Length :: s[k] == old(s[k])
      decreases n - i
    {
      s[i] := Lower(s[i]);
      i := i + 1;
    }
  }

  const TrueWords: seq<string> := ["y", "t", "yes", "true", "1"]
  const FalseWords: seq<string> := ["n", "f", "no", "false", "0"]

  /** The boolean a word names, case-insensitively, or the error for any other word. */
  function ToBool(v: string): (r: Result<bool>)
    ensures r.Ok? <==> LowerAll(v) in TrueWords || LowerAll(v) in FalseWords
    ensures r.Ok? ==> (r.value <==> LowerAll(v) in TrueWords)
    ensures r.Err? ==> r.error == "Invalid boolean value: " + LowerAll(v)
  {
    var w := LowerAll(v);
    if w in TrueWords then Ok(true)
    else if w in FalseWords then Ok(false)
    else Err("Invalid boolean value: " + w)
  }

  /** ToBool does not see case. */
  lemma ToBoolIgnoresCase(v: string)
    ensures ToBool(UpperAll(v)) == ToBool(v)
  {
    LowerIgnoresCase(v);
  }

  /** A scan for a non-empty run of ASCII digits. */
  method IsNumeric(s: string) returns (b: bool)
    ensures b <==> |s| > 0 && forall i | 0 <= i < |s| :: IsDigit(s[i])
  {
    if |s| == 0 {
      return false;
    }
    var i := 0;
    while i < |s|
      invariant 0 <= i <= |s|
      invariant forall k | 0 <= k < i :: IsDigit(s[k])
    {
      if !IsDigit(s[i]) {
        return false;
      }
      i := i + 1;
    }
    return true;
  }

  // ---------------------------------------------------------------------------
  // Splitting a comma-separated line.

  /** Removes trailing whitespace. */
  function TrimEnd(f: string): (r: string)
    ensures |r| <= |f| && r == f[..|r|]
    ensures |r| == 0 || !IsWhiteSpace(r[|r| - 1])
    ensures forall k | |r| <= k < |f| :: IsWhiteSpace(f[k])
    decreases |f|
  {
    if |f| > 0 && IsWhiteSpace(f[|f| - 1]) then TrimEnd(f[..|f| - 1]) else f
  }

  /** The splitter's state: the finished fields, the field being built, whether inside quotes, and the next index. */
  datatype Scan = Scan(fields: seq<string>, field: string, quoted: bool, at: nat)

  /** Whether the scan has reached the end of the line or its terminating NUL. */
  predicate Done(t: string, at: nat)
  {
    at >= |t| || t[at] == '\0'
  }

  /** One step of the scan over the character at st.at. */
  function Step(st: Scan, t: string): (r: Scan)
    requires !Done(t, st.at)
    ensures r.at > st.at
  {
    var c := t[st.at];
    if c == '"' then
      if st.at + 1 < |t| && t[st.at + 1] == '"' then Scan(st.fields, st.field + ['"'], st.quoted, st.at + 2)
      else Scan(st.fields, st.field, !st.quoted, st.at + 1)
    else if c == ',' && !st.quoted then Scan(st.fields + [TrimEnd(st.field)], "", st.quoted, st.at + 1)
    else if !IsWhiteSpace(c) || st.field != "" then Scan(st.fields, st.field + [c], st.quoted, st.at + 1)
    else Scan(st.fields, st.field, st.quoted, st.at + 1)
  }

  function Fold(st: Scan, t: string): Scan
    decreases |t| - st.at
  {
    if Done(t, st.at) then st else Fold(Step(st, t), t)
  }

  /** The line without one trailing carriage return. */
  function DropCR(line: string): string
  {
    if |line| > 0 && line[|line| - 1] == '\r' then line[..|line| - 1] else line
  }

  const Unbalanced := "Unbalanced quotation marks."

  /** The fields of a line, or the error for an unbalanced quote. */
  function Split(line: string): Result<seq<string>>
  {
    var f := Fold(Scan([], "", false, 0), DropCR(line));
    if f.quoted then Err(Unbalanced) else Ok(f.fields + [TrimEnd(f.field)])
  }

  /**
   * SplitCSV: also returns the line as the caller sees it afterwards, with one
   * trailing carriage return removed.
   */
  method SplitCSV(line: string) returns (r: Result<seq<string>>, line': string)
    ensures line' == DropCR(line)
    ensures r == Split(line)
  {
    line' := line;
    if |line'| > 0 && line'[|line'| - 1] == '\r' {
      line' := line'[..|line'| - 1];
    }
    var fields: seq<string> := [];
    var field: string := "";
    var quoted := false;
    var i: nat := 0;
    while !Done(line', i)
      invariant Fold(Scan([], "", false, 0), line') == Fold(Scan(fields, field, quoted, i), line')
      decreases |line'| - i
    {
      var c := line'[i];
      if c == '"' {
        if i + 1 < |line'| && line'[i + 1] == '"' {
          field := field + ['"'];
          i := i + 2;
        } else {
          quoted := !quoted;
          i := i + 1;
        }
      } else if c == ',' && !quoted {
        ghost var before := field;
        while |field| > 0 && IsWhiteSpace(field[|field| - 1])
          invariant TrimEnd(field) == TrimEnd(before)
        {
          field := field[..|field| - 1];
        }
        fields := fields + [field];
        field := "";
        i := i + 1;
      } else {
        if !IsWhiteSpace(c) || field != "" {
          field := field + [c];
        }
        i := i + 1;
      }
    }
    if quoted {
      return Err(Unbalanced), line';
    }
    ghost var before := field;
    while |field| > 0 && IsWhiteSpace(field[|field| - 1])
      invariant TrimEnd(field) == TrimEnd(before)
    {
      field := field[..|field| - 1];
    }
    r := Ok(fields + [field]);
  }

  // ---------------------------------------------------------------------------
  // Properties of the splitter.

  function Count(s: string, c: char): nat
  {
    if |s| == 0 then 0 else (if s[0] == c then 1 else 0) + Count(s[1..], c)
  }

  predicate NoNul(s: string) { forall i | 0 <= i < |s| :: s[i] != '\0' }

  /** Neither leading nor trailing whitespace. */
  predicate Trimmed(f: string)
  {
    |f| == 0 || (!IsWhiteSpace(f[0]) && !IsWhiteSpace(f[|f| - 1]))
  }

  predicate NoLeadingWhiteSpace(f: string)
  {
    |f| == 0 || !IsWhiteSpace(f[0])
  }

  predicate ScanTrimmed(st: Scan)
  {
    NoLeadingWhiteSpace(st.field) && forall k | 0 <= k < |st.fields| :: Trimmed(st.fields[k])
  }

  lemma {:induction false} FoldKeepsTrimmed(st: Scan, t: string)
    requires ScanTrimmed(st)
    ensures ScanTrimmed(Fold(st, t))
    decreases |t| - st.at
  {
    if !Done(t, st.at) {
      var n := Step(st, t);
      assert ScanTrimmed(n) by {
        var f := TrimEnd(st.field);
        assert NoLeadingWhiteSpace(f) by {
          if |f| > 0 { assert f[0] == st.field[0]; }
        }
      }
      FoldKeepsTrimmed(n, t);
    }
  }

  /** No field has leading or trailing whitespace, quoted or not. */
  lemma FieldsAreTrimmed(line: string)
    requires Split(line).Ok?
    ensures forall k | 0 <= k < |Split(line).value| :: Trimmed(Split(line).value[k])
  {
    var f := Fold(Scan([], "", false, 0), DropCR(line));
    FoldKeepsTrimmed(Scan([], "", false, 0), DropCR(line));
    var last := TrimEnd(f.field);
    assert Trimmed(last) by {
      if |last| > 0 { assert last[0] == f.field[0]; }
    }
    assert Split(line).value == f.fields + [last];
  }

  lemma {:induction false} FoldCountsCommas(st: Scan, t: string)
    requires NoNul(t) && '"' !in t && !st.quoted && st.at <= |t|
    ensures var f := Fold(st, t); !f.quoted && |f.fields| == |st.fields| + Count(t[st.at..], ',')
    decreases |t| - st.at
  {
    if st.at < |t| {
      assert t[st.at..][1..] == t[st.at + 1..];
      FoldCountsCommas(Step(st, t), t);
    } else {
      assert t[st.at..] == [];
    }
  }

  /** Without quotes, a line has one more field than it has commas. */
  lemma UnquotedFieldCount(line: string)
    requires NoNul(line) && '"' !in line
    ensures Split(line).Ok?
    ensures |Split(line).value| == Count(DropCR(line), ',') + 1
  {
    var t := DropCR(line);
    assert NoNul(t) && '"' !in t;
    FoldCountsCommas(Scan([], "", false, 0), t);
    assert t[0..] == t;
  }

  predicate NoDoubledQuotes(t: string)
  {
    forall i | 0 <= i < |t| - 1 :: !(t[i] == '"' && t[i + 1] == '"')
  }

  function Odd(n: nat): bool { n % 2 == 1 }

  lemma {:induction false} FoldTogglesOnQuotes(st: Scan, t: string)
    requires NoNul(t) && NoDoubledQuotes(t) && st.at <= |t|
    ensures Fold(st, t).quoted == (st.quoted != Odd(Count(t[st.at..], '"')))
    decreases |t| - st.at
  {
    if st.at < |t| {
      assert t[st.at..][1..] == t[st.at + 1..];
      FoldTogglesOnQuotes(Step(st, t), t);
    } else {
      assert t[st.at..] == [];
    }
  }

  /** When no two quotes are adjacent, the line is refused exactly when it has an odd number of quotes. */
  lemma UnbalancedIffOddQuotes(line: string)
    requires NoNul(line) && NoDoubledQuotes(DropCR(line))
    ensures Split(line).Err? <==> Odd(Count(DropCR(line), '"'))
    ensures Split(line).Err? ==> Split(line).error == Unbalanced
  {
    var t := DropCR(line);
    assert NoNul(t);
    FoldTogglesOnQuotes(Scan([], "", false, 0), t);
    assert t[0..] == t;
  }

  /** An empty line is one empty field. */
  lemma EmptyLineIsOneField()
    ensures Split("") == Ok([""])
  {
    assert Fold(Scan([], "", false, 0), "") == Scan([], "", false, 0);
    assert TrimEnd("") == "";
    assert [] + [""] == [""];
  }

  /** A doubled quote is a literal quote. */
  lemma DoubledQuoteIsLiteral()
    ensures Split("a\"\"b") == Ok(["a\"b"])
  {
    var t := "a\"\"b";
    assert DropCR(t) == t;
    var s0 := Scan([], "", false, 0);
    var s1 := Scan([], "a", false, 1);
    var s2 := Scan([], "a\"", false, 3);
    var s3 := Scan([], "a\"b", false, 4);
    assert Step(s0, t) == s1;
    assert Fold(s0, t) == Fold(s1, t);
    assert Step(s1, t) == s2;
    assert Fold(s1, t) == Fold(s2, t);
    assert Step(s2, t) == s3;
    assert Fold(s2, t) == Fold(s3, t);
    assert Fold(s3, t) == s3;
    assert TrimEnd(s3.field) == s3.field;
    assert s3.fields + [s3.field] == ["a\"b"];
  }

  /** Inside quotes the comma is kept in the field; the closing quote ends the quoting. */
  lemma QuotedCommaKept(t: string)
    requires t == "\",\",z"
    ensures Fold(Scan([], "", false, 0), t) == Fold(Scan([], ",", false, 3), t)
  {
    var s0 := Scan([], "", false, 0);
    var s1 := Scan([], "", true, 1);
    var s2 := Scan([], ",", true, 2);
    var s3 := Scan([], ",", false, 3);
    assert Step(s0, t) == s1;
    assert Fold(s0, t) == Fold(s1, t);
    assert Step(s1, t) == s2;
    assert Fold(s1, t) == Fold(s2, t);
    assert Step(s2, t) == s3;
    assert Fold(s2, t) == Fold(s3, t);
  }

  /** A comma inside quotes does not separate, and a trailing carriage return is dropped. */
  lemma QuotedCommaDoesNotSplit()
    ensures Split("\",\",z\r") == Ok([",", "z"])
  {
    var t := "\",\",z";
    assert DropCR("\",\",z\r") == t;
    QuotedCommaKept(t);
    var s3 := Scan([], ",", false, 3);
    var s4 := Scan([","], "", false, 4);
    var s5 := Scan([","], "z", false, 5);
    assert TrimEnd(",") == ",";
    assert Step(s3, t) == s4;
    assert Fold(s3, t) == Fold(s4, t);
    assert Step(s4, t) == s5;
    assert Fold(s4, t) == Fold(s5, t);
    assert Fold(s5, t) == s5;
    assert TrimEnd(s5.field) == s5.field;
    assert s5.fields + [s5.field] == [",", "z"];
  }
}
