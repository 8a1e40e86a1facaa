/**
 The export button (src/types/components/ExcelExport.tsx). The answer to
 the file-name prompt is an input: `None` when the user cancels.
 */
module ExcelExport {
  import opened PortTypes
  import opened Sheet

  /** The characters JavaScript's `String.prototype.trim` removes: the
      WhiteSpace and LineTerminator code points of ECMAScript. */
  predicate IsJsWhitespace(c: char) {
    var n := c as int;
    n == 0x09 || n == 0x0A || n == 0x0B || n == 0x0C || n == 0x0D || n == 0x20 ||
    n == 0xA0 || n == 0x1680 || (0x2000 <= n <= 0x200A) ||
    n == 0x2028 || n == 0x2029 || n == 0x202F || n == 0x205F || n == 0x3000 || n == 0xFEFF
  }

  /** `s` with its leading whitespace removed. */
  function TrimStart(s: string): (r: string)
    ensures |r| <= |s| && r == s[|s| - |r|..]
    ensures forall i :: 0 <= i < |s| - |r| ==> IsJsWhitespace(s[i])
    ensures r == [] || !IsJsWhitespace(r[0])
  {
    if |s| > 0 && IsJsWhitespace(s[0]) then TrimStart(s[1..]) else s
  }

  /** `s` with its trailing whitespace removed. */
  function TrimEnd(s: string): (r: string)
    ensures |r| <= |s| && r == s[..|r|]
    ensures forall i :: |r| <= i < |s| ==> IsJsWhitespace(s[i])
    ensures r == [] || !IsJsWhitespace(r[|r| - 1])
  {
    if |s| > 0 && IsJsWhitespace(s[|s| - 1]) then TrimEnd(s[..|s| - 1]) else s
  }

  /** `s.trim()` */
  function Trim(s: string): string {
    TrimEnd(TrimStart(s))
  }

  /** `s.trim() === ""` */
  predicate IsBlank(s: string) {
    Trim(s) == ""
  }

  /** Every character of `s` is whitespace. */
  predicate AllWhitespace(s: string) {
    forall k :: 0 <= k < |s| ==> IsJsWhitespace(s[k])
  }

  /** The leading cut of `TrimStart` is whitespace. */
  lemma TrimStartSplit(s: string)
    ensures var t := TrimStart(s);
      s == s[..|s| - |t|] + t && AllWhitespace(s[..|s| - |t|])
  {
    var t := TrimStart(s);
    var n := |s| - |t|;
    var pre := s[..n];
    assert t == s[n..];
    assert s == pre + s[n..];
    forall k | 0 <= k < n ensures IsJsWhitespace(pre[k]) {
      assert pre[k] == s[k];
    }
  }

  /** The trailing cut of `TrimEnd` is whitespace. */
  lemma TrimEndSplit(t: string)
    ensures var r := TrimEnd(t);
      t == r + t[|r|..] && AllWhitespace(t[|r|..])
  {
    var r := TrimEnd(t);
    var post := t[|r|..];
    forall k | 0 <= k < |post| ensures IsJsWhitespace(post[k]) {
      assert post[k] == t[|r| + k];
    }
  }

  /** What `trim` cuts from the front of `s`. */
  function LeadingCut(s: string): string {
    s[..|s| - |TrimStart(s)|]
  }

  /** What `trim` cuts from the back of `s`. */
  function TrailingCut(s: string): string {
    TrimStart(s)[|Trim(s)|..]
  }

  /** Trimming cuts whitespace only, from both ends. */
  lemma TrimCutsWhitespace(s: string)
    ensures s == LeadingCut(s) + Trim(s) + TrailingCut(s)
    ensures AllWhitespace(LeadingCut(s)) && AllWhitespace(TrailingCut(s))
  {
    var t := TrimStart(s);
    TrimStartSplit(s);
    TrimEndSplit(t);
    Regroup(s, LeadingCut(s), t, Trim(s), TrailingCut(s));
  }

  lemma Regroup(s: string, pre: string, t: string, r: string, post: string)
    requires s == pre + t && t == r + post
    ensures s == pre + r + post
  {
  }

  /** What trimming leaves neither starts nor ends with whitespace. */
  lemma TrimmedEnds(s: string)
    ensures Trim(s) == [] || (!IsJsWhitespace(Trim(s)[0]) && !IsJsWhitespace(Trim(s)[|Trim(s)| - 1]))
  {
    TrimEndKeepsStart(TrimStart(s));
  }

  /** Cutting trailing whitespace from a string that does not start with
      whitespace leaves a string that does not either (or nothing). */
  lemma {:induction false} TrimEndKeepsStart(t: string)
    requires t == [] || !IsJsWhitespace(t[0])
    ensures TrimEnd(t) == [] || !IsJsWhitespace(TrimEnd(t)[0])
  {
    var r := TrimEnd(t);
    if r != [] {
      assert r[0] == t[0];
    }
  }

  /** A string is blank iff it consists of whitespace only. */
  lemma {:induction false} BlankIffAllWhitespace(s: string)
    ensures IsBlank(s) <==> AllWhitespace(s)
  {
    var t := TrimStart(s);
    assert |t| > 0 ==> t[0] == s[|s| - |t|];
    assert |t| > 0 ==> TrimEnd(t) != [];
  }

  /** A string with no whitespace at either end is its own trim. */
  lemma TrimOfTrimmed(s: string)
    requires s == [] || (!IsJsWhitespace(s[0]) && !IsJsWhitespace(s[|s| - 1]))
    ensures Trim(s) == s
  {
  }

  /** Trimming twice is trimming once. */
  lemma TrimIdempotent(s: string)
    ensures Trim(Trim(s)) == Trim(s)
  {
    TrimmedEnds(s);
    TrimOfTrimmed(Trim(s));
  }

  /** `handleExport`, given the list shown and the prompt's answer. */
  function HandleExport(ports: seq<Port>, answer: Option<string>): (out: ExportOutcome)
    ensures out.NoData? <==> |ports| == 0
    ensures out.InvalidFileName? <==> |ports| > 0 && (answer.None? || IsBlank(answer.value))
    ensures out.Written? ==>
      && out.book.fileName == Trim(answer.value) + ".xlsx"
      && out.book.sheetName == "Portlar"
      && out.book.rows == StripIds(ports)
  {
    if |ports| == 0 then NoData
    else if answer.None? || answer.value == "" || Trim(answer.value) == "" then InvalidFileName
    else Written(Workbook(Trim(answer.value) + ".xlsx", SheetName, StripIds(ports)))
  }

  /** A written file name is a non-blank stem without surrounding whitespace,
      followed by ".xlsx". */
  lemma ExportFileName(ports: seq<Port>, answer: Option<string>)
    requires HandleExport(ports, answer).Written?
    ensures var name := HandleExport(ports, answer).book.fileName;
      && |name| > 5 && name[|name| - 5..] == ".xlsx"
      && var stem := name[..|name| - 5];
         !IsJsWhitespace(stem[0]) && !IsJsWhitespace(stem[|stem| - 1]) && Trim(stem) == stem
  {
    var stem := Trim(answer.value);
    TrimmedEnds(answer.value);
    TrimIdempotent(answer.value);
    var name := HandleExport(ports, answer).book.fileName;
    assert name[..|name| - 5] == stem;
  }

  /** Whitespace around the answer does not change what is written. */
  lemma ExportIgnoresSurroundingWhitespace(ports: seq<Port>, name: string)
    ensures HandleExport(ports, Some(Trim(name))) == HandleExport(ports, Some(name))
  {
    TrimIdempotent(name);
  }
}
