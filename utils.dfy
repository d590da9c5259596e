/**
 * src/utils.ts: the outcome record the structured chats return, the schema
 * translator (an oracle here) and trim_line_whitespace with its algebra.
 */
module Utils {
  import opened Types

  /** The success/problem record every structured chat returns. */
  datatype Outcome<T, E> = Success(value: T) | Problem(message: string, error: E)

  /**
   * A zod schema, seen from outside: `openApi` is what zod_to_open_api makes
   * of it (a JSON schema, or a problem), and `parse` is its parse method,
   * which returns the validated value or throws. The argument of `parse` is
   * None when the value handed to it is `undefined`.
   */
  datatype ZodSchema = ZodSchema(
    openApi: Outcome<Json, LlmError<string>>,
    parse: Option<Json> -> Attempt<Json>)

  /** The translator's outcome as the JavaScript object that callers pass on and stringify. */
  function TranslationJson(o: Outcome<Json, LlmError<string>>): Json
  {
    match o
    case Success(v) =>
      JObject(map["status" := JString("success"), "value" := v])
    case Problem(m, e) =>
      JObject(map[
        "status" := JString("problem"),
        "message" := JString(m),
        "error" := JObject(map["type" := JString(e.kind), "value" := JString(e.value), "error" := e.cause])])
  }

  predicate StartsWith(s: string, prefix: string)
  {
    |prefix| <= |s| && s[..|prefix|] == prefix
  }

  predicate EndsWith(s: string, suffix: string)
  {
    |suffix| <= |s| && s[|s| - |suffix|..] == suffix
  }

  // ---------------------------------------------------------------------
  // trim_line_whitespace: split on "\n", trim every line, join with "\n".
  // ---------------------------------------------------------------------

  /** The WhiteSpace and LineTerminator characters of ECMAScript, which String.prototype.trim removes. */
  predicate IsJsWhitespace(c: char)
  {
    || c == '\t' || c == '\n' || c == '\U{000B}' || c == '\U{000C}' || c == '\r'
    || c == ' ' || c == '\U{00A0}' || c == '\U{1680}'
    || ('\U{2000}' <= c <= '\U{200A}')
    || c == '\U{2028}' || c == '\U{2029}' || c == '\U{202F}' || c == '\U{205F}'
    || c == '\U{3000}' || c == '\U{FEFF}'
  }

  /** Neither the first nor the last character is whitespace. */
  predicate Trimmed(s: string)
  {
    s == [] || (!IsJsWhitespace(s[0]) && !IsJsWhitespace(s[|s| - 1]))
  }

  /**
   * The end of the whitespace run that starts at `i`: everything from `i` up
   * to the result is whitespace, and the result is the end of `s` or a
   * character that is not.
   */
  function LeadingEnd(s: string, i: nat): (n: nat)
    requires i <= |s|
    ensures i <= n <= |s|
    ensures forall k :: i <= k < n ==> IsJsWhitespace(s[k])
    ensures n == |s| || !IsJsWhitespace(s[n])
    decreases |s| - i
  {
    if i < |s| && IsJsWhitespace(s[i]) then LeadingEnd(s, i + 1) else i
  }

  /**
   * The start of the whitespace run that ends at `j`, not going below `lo`:
   * everything from the result up to `j` is whitespace, and the result is
   * `lo` or follows a character that is not.
   */
  function TrailingStart(s: string, lo: nat, j: nat): (n: nat)
    requires lo <= j <= |s|
    ensures lo <= n <= j
    ensures forall k :: n <= k < j ==> IsJsWhitespace(s[k])
    ensures n == lo || !IsJsWhitespace(s[n - 1])
  {
    if j > lo && IsJsWhitespace(s[j - 1]) then TrailingStart(s, lo, j - 1) else j
  }

  /**
   * String.prototype.trim: the contiguous part of `s` left once the leading
   * and the trailing whitespace are removed. Everything dropped before and
   * after it is whitespace; it is trimmed, never longer, adds no line break,
   * and is `s` itself exactly when `s` is already trimmed.
   */
  function Trim(s: string): (r: string)
    ensures var a := LeadingEnd(s, 0);
      && a + |r| <= |s| && r == s[a..a + |r|]
      && (forall k :: 0 <= k < a ==> IsJsWhitespace(s[k]))
      && (forall k :: a + |r| <= k < |s| ==> IsJsWhitespace(s[k]))
    ensures Trimmed(r)
    ensures r == s <==> Trimmed(s)
    ensures '\n' !in s ==> '\n' !in r
  {
    var a := LeadingEnd(s, 0);
    var e := TrailingStart(s, a, |s|);
    var r := s[a..e];
    assert Trimmed(r) by {
      if r != [] {
        assert r[0] == s[a] && r[|r| - 1] == s[e - 1];
      }
    }
    assert Trimmed(s) ==> a == 0 && e == |s|;
    assert '\n' in r ==> '\n' in s by {
      if '\n' in r {
        var j :| 0 <= j < |r| && r[j] == '\n';
        assert s[a + j] == '\n';
      }
    }
    r
  }

  /** String.prototype.split("\n"): the text between consecutive line breaks, always at least one line. */
  function Split(s: string): (lines: seq<string>)
    ensures |lines| >= 1
    ensures forall i :: 0 <= i < |lines| ==> '\n' !in lines[i]
  {
    if s == [] then [[]]
    else
      var rest := Split(s[1..]);
      if s[0] == '\n' then [[]] + rest
      else [[s[0]] + rest[0]] + rest[1..]
  }

  /** Array.prototype.join("\n"): the lines with one separator between each two. */
  function Join(lines: seq<string>): (r: string)
    requires |lines| >= 1
    ensures |r| == SumLengths(lines) + |lines| - 1
    ensures StartsWith(r, lines[0])
  {
    if |lines| == 1 then lines[0] else lines[0] + "\n" + Join(lines[1..])
  }

  /** `lines.map(line => line.trim())`: line by line, every line trimmed and never longer. */
  function TrimLines(lines: seq<string>): (r: seq<string>)
    ensures |r| == |lines|
    ensures forall i :: 0 <= i < |r| ==> Trimmed(r[i]) && |r[i]| <= |lines[i]|
  {
    seq(|lines|, i requires 0 <= i < |lines| => Trim(lines[i]))
  }

  /** trim_line_whitespace: output line i is the trim of input line i. */
  function TrimLineWhitespace(content: string): (r: string)
    ensures Split(r) == TrimLines(Split(content))
  {
    SplitJoin(TrimLines(Split(content)));
    Join(TrimLines(Split(content)))
  }

  function NewlineCount(s: string): nat
  {
    if s == [] then 0 else (if s[0] == '\n' then 1 else 0) + NewlineCount(s[1..])
  }

  function SumLengths(lines: seq<string>): nat
  {
    if lines == [] then 0 else |lines[0]| + SumLengths(lines[1..])
  }

  // --- split and join are inverse to each other

  lemma {:induction false} SplitLineCount(s: string)
    ensures |Split(s)| == NewlineCount(s) + 1
  {
    if s != [] {
      SplitLineCount(s[1..]);
    }
  }

  lemma {:induction false} JoinSplit(s: string)
    ensures Join(Split(s)) == s
  {
    if s != [] {
      var rest := Split(s[1..]);
      JoinSplit(s[1..]);
      if s[0] == '\n' {
        assert Split(s)[1..] == rest;
      } else {
        var lines := Split(s);
        assert lines[1..] == rest[1..];
        if |rest| > 1 {
          assert Join(rest) == rest[0] + "\n" + Join(rest[1..]);
          assert Join(lines) == [s[0]] + (rest[0] + "\n" + Join(rest[1..]));
        }
        assert s == [s[0]] + s[1..];
      }
    }
  }

  /** Splitting a text that starts with a line-break-free prefix `a` glues `a` onto the first line. */
  lemma {:induction false} SplitPrefix(a: string, rest: string)
    requires '\n' !in a
    ensures Split(a + rest) == [a + Split(rest)[0]] + Split(rest)[1..]
  {
    if a == [] {
      assert a + rest == rest;
      assert a + Split(rest)[0] == Split(rest)[0];
    } else {
      var s := a + rest;
      assert s[0] == a[0] && s[1..] == a[1..] + rest;
      SplitPrefix(a[1..], rest);
      assert [a[0]] + (a[1..] + Split(rest)[0]) == a + Split(rest)[0];
    }
  }

  lemma {:induction false} SplitJoin(lines: seq<string>)
    requires |lines| >= 1
    requires forall i :: 0 <= i < |lines| ==> '\n' !in lines[i]
    ensures Split(Join(lines)) == lines
  {
    if |lines| == 1 {
      SplitPrefix(lines[0], []);
      assert lines[0] + [] == lines[0];
    } else {
      var j := Join(lines[1..]);
      SplitJoin(lines[1..]);
      assert Join(lines) == lines[0] + ("\n" + j);
      SplitPrefix(lines[0], "\n" + j);
      assert ("\n" + j)[0] == '\n' && ("\n" + j)[1..] == j;
      assert lines[0] + [] == lines[0];
      assert lines == [lines[0]] + lines[1..];
    }
  }

  lemma {:induction false} SumLengthsCompare(a: seq<string>, b: seq<string>)
    requires |a| == |b|
    requires forall i :: 0 <= i < |a| ==> |a[i]| <= |b[i]|
    ensures SumLengths(a) <= SumLengths(b)
    ensures SumLengths(a) == SumLengths(b) <==> forall i :: 0 <= i < |a| ==> |a[i]| == |b[i]|
  {
    if a != [] {
      SumLengthsCompare(a[1..], b[1..]);
      if SumLengths(a) == SumLengths(b) {
        forall i | 0 <= i < |a| ensures |a[i]| == |b[i]| {
          if i > 0 {
            assert a[1..][i - 1] == a[i] && b[1..][i - 1] == b[i];
          }
        }
      }
    }
  }

  lemma TrimIdempotent(s: string)
    ensures Trim(Trim(s)) == Trim(s)
  {
  }

  // --- the properties of trim_line_whitespace

  /** The number of line breaks is preserved. */
  lemma TrimLineWhitespaceKeepsLineBreaks(content: string)
    ensures NewlineCount(TrimLineWhitespace(content)) == NewlineCount(content)
  {
    SplitLineCount(content);
    SplitLineCount(TrimLineWhitespace(content));
  }

  /** No output line begins or ends with whitespace. */
  lemma TrimLineWhitespaceTrimsEveryLine(content: string)
    ensures forall i :: 0 <= i < |Split(TrimLineWhitespace(content))| ==>
      Trimmed(Split(TrimLineWhitespace(content))[i])
  {
  }

  /** Applying trim_line_whitespace twice is the same as applying it once. */
  lemma TrimLineWhitespaceIdempotent(content: string)
    ensures TrimLineWhitespace(TrimLineWhitespace(content)) == TrimLineWhitespace(content)
  {
    var lines := TrimLines(Split(content));
    var again := TrimLines(lines);
    forall i | 0 <= i < |lines| ensures again[i] == lines[i] {
      assert again[i] == Trim(lines[i]);
    }
    assert again == lines;
  }

  /**
   * The output is never longer than the input; it has the same length, and
   * then it is the input itself, exactly when every line is already trimmed.
   */
  lemma TrimLineWhitespaceLength(content: string)
    ensures |TrimLineWhitespace(content)| <= |content|
    ensures |TrimLineWhitespace(content)| == |content| <==>
      forall i :: 0 <= i < |Split(content)| ==> Trimmed(Split(content)[i])
    ensures TrimLineWhitespace(content) == content <==>
      forall i :: 0 <= i < |Split(content)| ==> Trimmed(Split(content)[i])
  {
    var lines := Split(content);
    var trimmed := TrimLines(lines);
    JoinSplit(content);
    SumLengthsCompare(trimmed, lines);
    assert (forall i :: 0 <= i < |lines| ==> |trimmed[i]| == |lines[i]|) <==>
      (forall i :: 0 <= i < |lines| ==> Trimmed(lines[i])) by {
      forall i | 0 <= i < |lines| ensures |trimmed[i]| == |lines[i]| <==> Trimmed(lines[i]) {
        assert trimmed[i] == Trim(lines[i]);
        assert |Trim(lines[i])| == |lines[i]| ==> Trim(lines[i]) == lines[i] by {
          assert LeadingEnd(lines[i], 0) == 0 ==> lines[i][0..|lines[i]|] == lines[i];
        }
      }
    }
    if forall i :: 0 <= i < |lines| ==> Trimmed(lines[i]) {
      forall i | 0 <= i < |lines| ensures trimmed[i] == lines[i] {
        assert trimmed[i] == Trim(lines[i]);
      }
      assert trimmed == lines;
    }
  }
}
