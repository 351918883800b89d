/** The quote-aware field splitter of the counter files. */
module Csv {

  const QUOTE: char := '"'
  const COMMA: char := ','

  /** An odd number of quotes: the end of `s` is inside one. */
  function InQuote(s: string): bool {
    if s == [] then false else (s[|s| - 1] == '"') != InQuote(s[..|s| - 1])
  }

  /** Commas stand inside quotes only. */
  ghost predicate Clean(field: string) {
    forall i :: 0 <= i < |field| && field[i] == ',' ==> InQuote(field[..i])
  }

  function Join(fields: seq<string>): string {
    if fields == [] then [] else if |fields| == 1 then fields[0] else fields[0] + [','] + Join(fields[1..])
  }

  /** What a split line looks like: at least one field, commas in quotes only, and every quote closed
      except perhaps in the last field. */
  ghost predicate Parsed(fields: seq<string>) {
    && fields != []
    && (forall k :: 0 <= k < |fields| ==> Clean(fields[k]))
    && (forall k :: 0 <= k < |fields| - 1 ==> !InQuote(fields[k]))
  }

  /** Fields each followed by a comma. */
  function Ended(fields: seq<string>): string {
    if fields == [] then [] else fields[0] + [COMMA] + Ended(fields[1..])
  }

  ghost predicate Closed(fields: seq<string>) {
    forall k :: 0 <= k < |fields| ==> Clean(fields[k]) && !InQuote(fields[k])
  }

  /** Where the scan stands: `out` has taken `line[..start]`, and the field begun there is clean so far. */
  ghost predicate Scanned(line: string, start: nat, i: nat, out: seq<string>, inQuote: bool) {
    && start <= i <= |line|
    && inQuote == InQuote(line[start..i]) && Clean(line[start..i])
    && Closed(out) && Ended(out) == line[..start]
  }

  lemma Cuts(line: string, start: nat, i: nat)
    requires start <= i <= |line|
    ensures line == line[..start] + line[start..]
    ensures i < |line| ==> line[start..i + 1] == line[start..i] + [line[i]]
    ensures i < |line| ==> line[..i + 1] == line[..start] + line[start..i] + [line[i]]
    ensures i < |line| ==> line[i + 1..i + 1] == []
  {
  }

  lemma NoField()
    ensures Clean([]) && !InQuote([]) && Ended([]) == []
  {
  }

  lemma Extends(s: string, c: char)
    ensures InQuote(s + [c]) == (InQuote(s) != (c == QUOTE))
    ensures Clean(s) && (c == COMMA ==> InQuote(s)) ==> Clean(s + [c])
  {
    assert (s + [c])[..|s|] == s;
    forall i | 0 <= i < |s|
      ensures (s + [c])[..i] == s[..i]
    {
    }
  }

  lemma {:induction false} EndedGrows(fields: seq<string>, last: string)
    ensures Ended(fields + [last]) == Ended(fields) + last + [COMMA]
  {
    if fields == [] {
      assert [last][1..] == [];
      assert Ended([last]) == last + [COMMA] + Ended([]);
    } else {
      assert (fields + [last])[1..] == fields[1..] + [last];
      EndedGrows(fields[1..], last);
    }
  }

  lemma {:induction false} JoinEnds(fields: seq<string>, last: string)
    ensures Join(fields + [last]) == Ended(fields) + last
  {
    if fields != [] {
      assert (fields + [last])[1..] == fields[1..] + [last];
      JoinEnds(fields[1..], last);
    }
  }

  lemma StartScan(line: string)
    ensures Scanned(line, 0, 0, [], false)
  {
    assert line[..0] == [];
    NoField();
  }

  /** One more character: a quote toggles, an open comma ends the field, anything else belongs to it. */
  lemma ScanOne(line: string, start: nat, i: nat, out: seq<string>, inQuote: bool)
    requires Scanned(line, start, i, out, inQuote) && i < |line|
    ensures if line[i] == COMMA && !inQuote then Scanned(line, i + 1, i + 1, out + [line[start..i]], false)
            else Scanned(line, start, i + 1, out, if line[i] == QUOTE then !inQuote else inQuote)
  {
    hide InQuote, Clean, Ended;
    Cuts(line, start, i);
    if line[i] == COMMA && !inQuote {
      EndedGrows(out, line[start..i]);
      NoField();
    } else {
      Extends(line[start..i], line[i]);
    }
  }

  lemma EndScan(line: string, start: nat, out: seq<string>, inQuote: bool)
    requires Scanned(line, start, |line|, out, inQuote)
    ensures Join(out + [line[start..]]) == line && Parsed(out + [line[start..]])
  {
    hide InQuote, Clean, Ended, Join;
    Cuts(line, start, |line|);
    assert line[start..|line|] == line[start..];
    JoinEnds(out, line[start..]);
  }

  /** Fields end at commas outside quotes; quotes stay in their fields. */
  method SplitCsv(line: string) returns (out: seq<string>)
    ensures Join(out) == line && Parsed(out)
  {
    out := [];
    var inQuote := false;
    var start := 0;
    StartScan(line);
    hide Scanned;
    for i := 0 to |line|
      invariant start <= i && Scanned(line, start, i, out, inQuote)
    {
      ScanOne(line, start, i, out, inQuote);
      if line[i] == QUOTE {
        inQuote := !inQuote;
      } else if line[i] == COMMA && !inQuote {
        out := out + [line[start..i]];
        start := i + 1;
      }
    }
    EndScan(line, start, out, inQuote);
    out := out + [line[start..]];
  }

  // ----- One line, one splitting -----

  /** Quotes of a part of a field count as in the field. */
  lemma {:induction false} SplitsApart(f: string, g: string, rest: string, more: string)
    requires f + [COMMA] + rest == g + more && |f| < |g|
    requires Clean(g)
    ensures InQuote(f)
  {
    var whole := f + [COMMA] + rest;
    assert whole[|f|] == COMMA;
    assert g[|f|] == (g + more)[|f|] == COMMA;
    assert g[..|f|] == (g + more)[..|f|] == whole[..|f|] == f;
  }

  /** Two parsed lists of fields with the same line are the same list. */
  lemma {:induction false} ParsedIsUnique(a: seq<string>, b: seq<string>)
    requires Parsed(a) && Parsed(b) && Join(a) == Join(b)
    ensures a == b
    decreases |a|
  {
    if |a| == 1 && |b| == 1 {
    } else if |a| == 1 {
      SplitsApart(b[0], a[0], Join(b[1..]), []);
    } else if |b| == 1 {
      SplitsApart(a[0], b[0], Join(a[1..]), []);
    } else {
      var x, y := Join(a[1..]), Join(b[1..]);
      assert a[0] + [COMMA] + x == b[0] + [COMMA] + y;
      assert a[0] + [COMMA] + x == a[0] + ([COMMA] + x) && b[0] + [COMMA] + y == b[0] + ([COMMA] + y);
      if |a[0]| < |b[0]| {
        SplitsApart(a[0], b[0], x, [COMMA] + y);
      } else if |b[0]| < |a[0]| {
        SplitsApart(b[0], a[0], y, [COMMA] + x);
      } else {
        SameHead(a[0], b[0], x, y);
        ParsedIsUnique(a[1..], b[1..]);
      }
    }
  }

  lemma SameHead(f: string, g: string, x: string, y: string)
    requires f + [COMMA] + x == g + [COMMA] + y && |f| == |g|
    ensures f == g && x == y
  {
    var w := f + [COMMA] + x;
    assert w[..|f|] == f && w[|f| + 1..] == x;
    assert w[..|g|] == g && w[|g| + 1..] == y;
  }

  /** Splitting the join of a list gives the list back exactly when the list is parsed: not empty,
      commas in quotes only, and quotes closed in all fields but the last. `out` is what `SplitCsv`
      returns for the joined line. */
  lemma SplitOfJoin(fields: seq<string>, out: seq<string>)
    requires Join(out) == Join(fields) && Parsed(out)
    ensures out == fields <==> Parsed(fields)
  {
    if Parsed(fields) {
      ParsedIsUnique(fields, out);
    }
  }
}
