/** The CSV line splitter of the furniture catalogue. */
module Csv {
  /** White space and line terminators, as String.prototype.trim removes them. */
  predicate Blank(c: char) {
    || c in " \t\n\r\U{000B}\U{000C}\U{00A0}\U{FEFF}\U{1680}\U{2028}\U{2029}\U{202F}\U{205F}\U{3000}"
    || '\U{2000}' <= c <= '\U{200A}'
  }

  function TrimStart(s: string): string {
    if s != "" && Blank(s[0]) then TrimStart(s[1..]) else s
  }

  function TrimEnd(s: string): string {
    if s != "" && Blank(s[|s| - 1]) then TrimEnd(s[..|s| - 1]) else s
  }

  function Trim(s: string): string {
    TrimEnd(TrimStart(s))
  }

  predicate NoOuterBlanks(s: string) {
    s != "" ==> !Blank(s[0]) && !Blank(s[|s| - 1])
  }

  /** The cells of the rest of a line, with the current cell and the quote state so far. */
  function Scan(rest: string, current: string, inQuotes: bool): seq<string>
    decreases |rest|
  {
    if rest == "" then [Trim(current)]
    else if rest[0] == '"' && inQuotes && |rest| > 1 && rest[1] == '"' then Scan(rest[2..], current + "\"", true)
    else if rest[0] == '"' then Scan(rest[1..], current, !inQuotes)
    else if rest[0] == ',' && !inQuotes then [Trim(current)] + Scan(rest[1..], "", false)
    else Scan(rest[1..], current + [rest[0]], inQuotes)
  }

  method SplitCsvLine(line: string) returns (cells: seq<string>)
    ensures cells == Scan(line, "", false)
  {
    cells := [];
    var current := "";
    var inQuotes := false;
    var index := 0;
    while index < |line|
      invariant 0 <= index <= |line|
      invariant cells + Scan(line[index..], current, inQuotes) == Scan(line, "", false)
    {
      var c := line[index];
      assert line[index..][1..] == line[index + 1..];
      if c == '"' && inQuotes && index + 1 < |line| && line[index + 1] == '"' {
        assert line[index..][2..] == line[index + 2..];
        current := current + "\"";
        index := index + 2;
      } else {
        if c == '"' {
          inQuotes := !inQuotes;
        } else if c == ',' && !inQuotes {
          cells := cells + [Trim(current)];
          current := "";
        } else {
          current := current + [c];
        }
        index := index + 1;
      }
    }
    cells := cells + [Trim(current)];
  }

  // ---- writing a line, RFC 4180 section 2, rules 5 to 7

  predicate Plain(field: string) {
    forall k :: 0 <= k < |field| ==> field[k] != '"' && field[k] != ','
  }

  function Doubled(field: string): string {
    if field == "" then ""
    else (if field[0] == '"' then "\"\"" else [field[0]]) + Doubled(field[1..])
  }

  /** A field may always be quoted, and must be if it has a comma or a quote. */
  function Written(field: string, quoted: bool): string {
    if quoted then "\"" + Doubled(field) + "\"" else field
  }

  function Line(fields: seq<string>, quoted: seq<bool>): string
    requires |fields| == |quoted| > 0
  {
    if |fields| == 1 then Written(fields[0], quoted[0])
    else Written(fields[0], quoted[0]) + "," + Line(fields[1..], quoted[1..])
  }

  lemma TrimIsIdentity(s: string)
    requires NoOuterBlanks(s)
    ensures Trim(s) == s
  {
  }

  lemma {:induction false} ScanPlain(field: string, rest: string, current: string)
    requires Plain(field)
    ensures Scan(field + rest, current, false) == Scan(rest, current + field, false)
  {
    if field == "" {
      assert field + rest == rest && current + field == current;
    } else {
      assert (field + rest)[1..] == field[1..] + rest;
      assert current + field == (current + [field[0]]) + field[1..];
      ScanPlain(field[1..], rest, current + [field[0]]);
    }
  }

  lemma {:induction false} ScanQuoted(field: string, rest: string, current: string)
    requires rest != "" ==> rest[0] != '"'
    ensures Scan(Doubled(field) + "\"" + rest, current, true) == Scan(rest, current + field, false)
  {
    var text := Doubled(field) + "\"" + rest;
    if field == "" {
      assert text[1..] == rest && current + field == current;
    } else {
      var tail := Doubled(field[1..]) + "\"" + rest;
      assert current + field == (current + [field[0]]) + field[1..];
      if field[0] == '"' {
        assert text == "\"\"" + tail && text[2..] == tail;
      } else {
        assert text == [field[0]] + tail && text[1..] == tail;
      }
      ScanQuoted(field[1..], rest, current + [field[0]]);
    }
  }

  lemma ScanField(field: string, quoted: bool, rest: string)
    requires quoted || Plain(field)
    requires rest != "" ==> rest[0] != '"'
    ensures Scan(Written(field, quoted) + rest, "", false) == Scan(rest, field, false)
  {
    assert "" + field == field;
    if quoted {
      ScanQuoted(field, rest, "");
      assert (Written(field, true) + rest)[1..] == Doubled(field) + "\"" + rest;
    } else {
      ScanPlain(field, rest, "");
    }
  }

  lemma ScanComma(rest: string, current: string)
    ensures Scan("," + rest, current, false) == [Trim(current)] + Scan(rest, "", false)
  {
    assert ("," + rest)[1..] == rest;
  }

  /** A value that the splitter's trimming leaves alone, in a form that the format allows. */
  predicate Writable(field: string, quoted: bool) {
    NoOuterBlanks(field) && (quoted || Plain(field))
  }

  /** Splitting a written line gives back exactly its fields. */
  lemma {:induction false} RoundTrip(fields: seq<string>, quoted: seq<bool>)
    requires |fields| == |quoted| > 0
    requires forall k :: 0 <= k < |fields| ==> Writable(fields[k], quoted[k])
    ensures Scan(Line(fields, quoted), "", false) == fields
  {
    hide Scan, Line, Blank, Written, Plain;
    WrittenIsTrimmed(fields, quoted);
    forall k | 0 <= k < |fields| ensures Trim(fields[k]) == fields[k] {
      TrimIsIdentity(fields[k]);
    }
  }

  /** Whatever the fields are, as long as those with commas or quotes are quoted, splitting the written
      line gives back each field without its outer white space: quotes do not protect it. */
  lemma {:induction false} WrittenIsTrimmed(fields: seq<string>, quoted: seq<bool>)
    requires |fields| == |quoted| > 0
    requires forall k :: 0 <= k < |fields| ==> quoted[k] || Plain(fields[k])
    ensures Scan(Line(fields, quoted), "", false) == seq(|fields|, k requires 0 <= k < |fields| => Trim(fields[k]))
  {
    hide Scan, Written, Plain, Trim;
    var rest := if |fields| == 1 then "" else Line(fields[1..], quoted[1..]);
    CellIsTrimmed(fields[0], quoted[0], rest);
    if |fields| == 1 {
    } else {
      WrittenIsTrimmed(fields[1..], quoted[1..]);
    }
  }

  lemma CellIsTrimmed(field: string, quoted: bool, rest: string)
    requires quoted || Plain(field)
    ensures Scan(Written(field, quoted) + "," + rest, "", false) == [Trim(field)] + Scan(rest, "", false)
    ensures Scan(Written(field, quoted), "", false) == [Trim(field)]
  {
    hide Blank, Plain, Written, Trim;
    assert Written(field, quoted) + "," + rest == Written(field, quoted) + ("," + rest);
    ScanField(field, quoted, "," + rest);
    ScanComma(rest, field);
    assert Written(field, quoted) + "" == Written(field, quoted);
    ScanField(field, quoted, "");
  }

  // ---- what trimming removes

  predicate AllBlank(s: string) {
    forall k :: 0 <= k < |s| ==> Blank(s[k])
  }

  /** Trimming removes exactly the outer white space. */
  lemma TrimMeans(before: string, core: string, after: string)
    requires AllBlank(before) && AllBlank(after) && NoOuterBlanks(core)
    ensures Trim(before + core + after) == core
  {
    hide Blank;
    assert before + core + after == before + (core + after);
    StartTrimmed(before, core + after);
    if core == "" {
      assert core + after == after + "";
      StartTrimmed(after, "");
    } else {
      assert TrimStart(core + after) == core + after;
      EndTrimmed(core, after);
    }
  }

  lemma {:induction false} StartTrimmed(before: string, rest: string)
    requires AllBlank(before)
    ensures TrimStart(before + rest) == TrimStart(rest)
  {
    if before == "" {
      assert before + rest == rest;
    } else {
      assert (before + rest)[1..] == before[1..] + rest;
      StartTrimmed(before[1..], rest);
    }
  }

  lemma {:induction false} EndTrimmed(core: string, after: string)
    requires AllBlank(after) && core != "" && !Blank(core[|core| - 1])
    ensures TrimEnd(core + after) == core
  {
    if after == "" {
      assert core + after == core;
    } else {
      var n := |after| - 1;
      assert (core + after)[..|core + after| - 1] == core + after[..n];
      EndTrimmed(core, after[..n]);
    }
  }

  /** The white space and line terminators of ECMA-262, sections 12.2 and 12.3, by code point. */
  lemma BlankMeans(c: char)
    ensures Blank(c) <==> var n := c as int;
                          9 <= n <= 13 || n in {0x20, 0xa0, 0x1680, 0x2028, 0x2029, 0x202f, 0x205f, 0x3000, 0xfeff} || 0x2000 <= n <= 0x200a
  {
  }

  // ---- any line, well-formed or not

  /** The commas that an even number of quotes precedes. */
  function Separators(rest: string, odd: bool): nat {
    if rest == "" then 0
    else (if rest[0] == ',' && !odd then 1 else 0) + Separators(rest[1..], if rest[0] == '"' then !odd else odd)
  }

  /** A line has one cell more than it has commas outside quotes, where a doubled quote inside quotes
      counts as two. */
  lemma {:induction false} CellsBetweenSeparators(rest: string, current: string, inQuotes: bool)
    ensures |Scan(rest, current, inQuotes)| == Separators(rest, inQuotes) + 1
    decreases |rest|
  {
    if rest == "" {
    } else if rest[0] == '"' && inQuotes && |rest| > 1 && rest[1] == '"' {
      assert rest[1..][1..] == rest[2..];
      CellsBetweenSeparators(rest[2..], current + "\"", true);
    } else if rest[0] == '"' {
      CellsBetweenSeparators(rest[1..], current, !inQuotes);
    } else if rest[0] == ',' && !inQuotes {
      CellsBetweenSeparators(rest[1..], "", false);
    } else {
      CellsBetweenSeparators(rest[1..], current + [rest[0]], inQuotes);
    }
  }
}
