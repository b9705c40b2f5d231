/**
 `make_table`: the rows of the summary table, one header row and one row per
 language, in the order the languages were entered into the dictionary. The
 rendering of the rows with a title is not part of this model.
 */
module Report {
  import opened Py
  import opened Aggregation

  /** One table cell: a language name, a count or an average salary. */
  datatype Cell = Text(text: string) | Int(n: int) | Num(x: real)

  /** The header row of the table. */
  function Header(): seq<Cell> {
    [Text("Язык программирования"), Text("Вакансий найдено"),
     Text("Вакансий обработано"), Text("Средняя зарплата")]
  }

  /** The values of a statistics dictionary, in the order its keys were inserted. */
  function StatsValues(stats: LanguageStats): seq<Cell> {
    [Int(stats.vacanciesFound), Int(stats.vacanciesProcessed), Num(stats.averageSalary)]
  }

  /**
   The row for one language: the language name, then the values of its
   statistics; it lines up with the header, column for column.
   */
  function Row(language: string, stats: LanguageStats): (row: seq<Cell>)
    ensures |row| == |Header()|
    ensures row[0] == Text(language)
    ensures row[1..] == StatsValues(stats)
  {
    [Text(language)] + StatsValues(stats)
  }

  /**
   The nested loops of `make_table` over `results.items()`. An entry whose
   statistics are `None` (what `.get(language)` gives for a fetch that returned
   an empty dictionary) fails on `.values()`; otherwise the table is the header
   followed by one row per entry, in order.
   */
  method MakeTable(results: seq<(string, Option<LanguageStats>)>) returns (r: PyResult<seq<seq<Cell>>>)
    ensures r.Raise? <==> exists i :: 0 <= i < |results| && results[i].1.None?
    ensures r.Raise? ==> r.error == AttributeError
    ensures r.Return? ==> |r.value| == |results| + 1 && r.value[0] == Header()
    ensures r.Return? ==> forall i :: 0 <= i < |results| ==> r.value[i + 1] == Row(results[i].0, results[i].1.value)
  {
    var table := [Header()];
    for i := 0 to |results|
      invariant |table| == i + 1 && table[0] == Header()
      invariant forall k :: 0 <= k < i ==> results[k].1.Some?
      invariant forall k :: 0 <= k < i ==> table[k + 1] == Row(results[k].0, results[k].1.value)
    {
      var (language, statistic) := results[i];
      if statistic.None? {
        return Raise(AttributeError);
      }
      var values := StatsValues(statistic.value);
      var row := [Text(language)];
      for j := 0 to |values|
        invariant row == [Text(language)] + values[..j]
      {
        row := row + [values[j]];
      }
      assert values[..|values|] == values;
      table := table + [row];
    }
    r := Return(table);
  }
}
