/** The CSV export both the expense list and the settings page build: a header line, one
    line per expense in order, and a total line, with the fields joined by ',' (no quoting)
    and the lines by '\n'. How an expense becomes its four fields is a parameter. */
module Csv {
  import opened Util
  import opened Types

  /** The header row. */
  const HEADERS: seq<string> := ["Date", "Description", "Category", "Amount"]

  /** No field of a row holds a line break. */
  predicate NoBreak(row: seq<string>)
  {
    forall i :: 0 <= i < |row| ==> '\n' !in row[i]
  }

  /** `rows.map(row => row.join(','))`: one line per expense, in order. */
  function RowLines(es: seq<Expense>, row: Expense -> seq<string>): (lines: seq<string>)
    ensures |lines| == |es|
    ensures forall i :: 0 <= i < |es| ==> lines[i] == Join(row(es[i]), ',')
  {
    seq(|es|, i requires 0 <= i < |es| => Join(row(es[i]), ','))
  }

  /** The lines of the file: the header, one line per expense in order, then the total line
      `['', '', 'Total', total]`. */
  function Lines(es: seq<Expense>, row: Expense -> seq<string>, show: real -> string): (lines: seq<string>)
    ensures |lines| == |es| + 2
    ensures lines[0] == "Date,Description,Category,Amount"
    ensures forall i :: 0 <= i < |es| ==> lines[i + 1] == Join(row(es[i]), ',')
    ensures lines[|es| + 1] == ",,Total," + show(Total(es))
  {
    var total := show(Total(es));
    HeaderLine();
    TotalLine(total);
    [Join(HEADERS, ',')] + RowLines(es, row) + [Join(["", "", "Total", total], ',')]
  }

  lemma HeaderLine()
    ensures Join(HEADERS, ',') == "Date,Description,Category,Amount"
  {
    JoinFour("Date", "Description", "Category", "Amount");
  }

  lemma TotalLine(total: string)
    ensures Join(["", "", "Total", total], ',') == ",,Total," + total
  {
    JoinFour("", "", "Total", total);
  }

  /** Four fields joined by ',' are the fields with a comma between each two. */
  lemma JoinFour(a: string, b: string, c: string, d: string)
    ensures Join([a, b, c, d], ',') == a + "," + b + "," + c + "," + d
  {
    assert [a, b, c, d][1..] == [b, c, d];
    assert [b, c, d][1..] == [c, d];
    assert [c, d][1..] == [d];
    assert Join([c, d], ',') == c + [','] + d;
    assert Join([b, c, d], ',') == b + [','] + (c + [','] + d);
    assert Join([a, b, c, d], ',') == a + [','] + (b + [','] + (c + [','] + d));
  }

  /** The file's text. */
  function Content(es: seq<Expense>, row: Expense -> seq<string>, show: real -> string): string
  {
    Join(Lines(es, row, show), '\n')
  }

  /** When no field and no total text holds a line break, the file splits back into exactly
      its lines. */
  lemma SplitsIntoLines(es: seq<Expense>, row: Expense -> seq<string>, show: real -> string)
    requires forall i :: 0 <= i < |es| ==> NoBreak(row(es[i]))
    requires '\n' !in show(Total(es))
    ensures Split(Content(es, row, show), '\n') == Lines(es, row, show)
  {
    var lines := Lines(es, row, show);
    forall k | 0 <= k < |lines| ensures '\n' !in lines[k] {
      LineHasNoBreak(es, row, show, k);
    }
    SplitJoin(lines, '\n');
  }

  lemma LineHasNoBreak(es: seq<Expense>, row: Expense -> seq<string>, show: real -> string, k: int)
    requires forall i :: 0 <= i < |es| ==> NoBreak(row(es[i]))
    requires '\n' !in show(Total(es))
    requires 0 <= k < |es| + 2
    ensures '\n' !in Lines(es, row, show)[k]
  {
    if k == 0 {
      JoinNoSep(HEADERS, ',', '\n');
    } else if k <= |es| {
      JoinNoSep(row(es[k - 1]), ',', '\n');
    } else {
      var last := ["", "", "Total", show(Total(es))];
      assert NoBreak(last);
      JoinNoSep(last, ',', '\n');
    }
  }
}
