/** The text a completed report carries (internal/reports/service.go:190-191), and the proof that the three
    counts can be read back from it. */
module ResultText {
  import opened Prelude
  import opened TodoTable

  const TOTAL: string := "Total todos: "
  const COMPLETED: string := "Completed: "
  const OUTSTANDING: string := "Outstanding: "

  /** Go's `%d` on a non-negative integer. */
  function Decimal(n: nat): string {
    if n < 10 then ["0123456789"[n]] else Decimal(n / 10) + ["0123456789"[n % 10]]
  }

  function Layout(first: string, second: string, third: string, s: Summary): string {
    first + Decimal(s.total) + ("\n" + (second + Decimal(s.completed) + ("\n" + (third + Decimal(s.outstanding)))))
  }

  function FormatResult(s: Summary): string {
    Layout(TOTAL, COMPLETED, OUTSTANDING, s)
  }

  // The reader.

  function ValueOf(digits: string): int {
    if digits == [] then 0
    else 10 * ValueOf(digits[..|digits| - 1]) + (digits[|digits| - 1] as int - '0' as int)
  }

  /** A decimal numeral: digits only, at least one, and no leading zero. */
  predicate Numeral(s: string) {
    s != [] && (forall i :: 0 <= i < |s| ==> '0' <= s[i] <= '9') && (s[0] == '0' ==> |s| == 1)
  }

  /** The length of the text before the first newline. */
  function LineLength(s: string): (k: nat)
    ensures k <= |s|
  {
    if s == [] || s[0] == '\n' then 0 else 1 + LineLength(s[1..])
  }

  function AfterLine(s: string): string {
    if LineLength(s) < |s| then s[LineLength(s) + 1..] else []
  }

  /** The number that follows a label: on the first line that starts with `tag`, what remains of the line, if it
      is a numeral. */
  function Labelled(s: string, tag: string): Option<int>
    decreases |s|
  {
    if s == [] then None
    else if tag <= s && |tag| <= LineLength(s) then
      var rest := s[|tag|..LineLength(s)];
      if Numeral(rest) then Some(ValueOf(rest)) else None
    else Labelled(AfterLine(s), tag)
  }

  lemma {:induction false} DecimalValue(n: nat)
    ensures Numeral(Decimal(n)) && ValueOf(Decimal(n)) == n
    ensures Decimal(n)[0] == '0' ==> n == 0
    ensures '\n' !in Decimal(n)
  {
    var last := "0123456789"[n % 10];
    assert last as int - '0' as int == n % 10;
    if n < 10 {
      assert Decimal(n)[..0] == [];
    } else {
      DecimalValue(n / 10);
      assert Decimal(n)[..|Decimal(n)| - 1] == Decimal(n / 10);
    }
  }

  lemma {:induction false} LineEnds(line: string, rest: string)
    requires '\n' !in line
    requires rest == [] || rest[0] == '\n'
    ensures LineLength(line + rest) == |line|
  {
    if line == [] {
      assert line + rest == rest;
    } else {
      assert (line + rest)[1..] == line[1..] + rest;
      LineEnds(line[1..], rest);
    }
  }

  lemma LineParts(tag: string, n: nat, rest: string)
    requires '\n' !in tag && (rest == [] || rest[0] == '\n')
    ensures var s := tag + Decimal(n) + rest;
            && LineLength(s) == |tag| + |Decimal(n)|
            && AfterLine(s) == (if rest == [] then [] else rest[1..])
            && tag <= s && s[|tag|..LineLength(s)] == Decimal(n)
  {
    DecimalValue(n);
    LineEnds(tag + Decimal(n), rest);
  }

  lemma ReadsLine(tag: string, n: nat, rest: string)
    requires '\n' !in tag && (rest == [] || rest[0] == '\n')
    ensures Labelled(tag + Decimal(n) + rest, tag) == Some(n)
  {
    DecimalValue(n);
    LineParts(tag, n, rest);
  }

  /** A line under another label is passed over. */
  lemma SkipsLine(tag: string, n: nat, rest: string, wanted: string)
    requires '\n' !in tag && (rest == [] || rest[0] == '\n')
    requires tag != [] && wanted != [] && tag[0] != wanted[0]
    ensures Labelled(tag + Decimal(n) + rest, wanted) == Labelled(if rest == [] then [] else rest[1..], wanted)
  {
    LineParts(tag, n, rest);
    assert (tag + Decimal(n) + rest)[0] == tag[0];
  }

  lemma ReadsLayout(first: string, second: string, third: string, s: Summary)
    requires '\n' !in first && '\n' !in second && '\n' !in third && first != [] && second != [] && third != []
    requires first[0] != second[0] && first[0] != third[0] && second[0] != third[0]
    ensures Labelled(Layout(first, second, third, s), first) == Some(s.total)
    ensures Labelled(Layout(first, second, third, s), second) == Some(s.completed)
    ensures Labelled(Layout(first, second, third, s), third) == Some(s.outstanding)
  {
    var tail := third + Decimal(s.outstanding);
    var middle := second + Decimal(s.completed) + ("\n" + tail);
    assert tail + [] == tail && ("\n" + middle)[1..] == middle && ("\n" + tail)[1..] == tail;
    ReadsLine(first, s.total, "\n" + middle);
    SkipsLine(first, s.total, "\n" + middle, second);
    SkipsLine(first, s.total, "\n" + middle, third);
    ReadsLine(second, s.completed, "\n" + tail);
    SkipsLine(second, s.completed, "\n" + tail, third);
    ReadsLine(third, s.outstanding, []);
  }

  lemma LayoutSpelled(first: string, second: string, third: string, s: Summary)
    ensures Layout(first, second, third, s) ==
            first + Decimal(s.total) + ("\n" + second) + Decimal(s.completed) + ("\n" + third) + Decimal(s.outstanding)
  {
  }

  /** The report text says each of the three numbers under its own label. */
  lemma ResultRoundTrip(s: Summary)
    ensures Labelled(FormatResult(s), "Total todos: ") == Some(s.total)
    ensures Labelled(FormatResult(s), "Completed: ") == Some(s.completed)
    ensures Labelled(FormatResult(s), "Outstanding: ") == Some(s.outstanding)
    ensures FormatResult(s) != ""
  {
    ReadsLayout(TOTAL, COMPLETED, OUTSTANDING, s);
  }

  /** And nothing else: it is these three lines. */
  lemma ResultLines(s: Summary)
    ensures FormatResult(s) == "Total todos: " + Decimal(s.total) + "\nCompleted: " + Decimal(s.completed) +
                               "\nOutstanding: " + Decimal(s.outstanding)
  {
    LayoutSpelled(TOTAL, COMPLETED, OUTSTANDING, s);
    assert "\n" + COMPLETED == "\nCompleted: ";
    assert "\n" + OUTSTANDING == "\nOutstanding: ";
  }
}
