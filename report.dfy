/**
 * The report formatter's output and the spreadsheet it is written to.
 * A result dict is an ordered list of (key, cell) entries, the order being
 * the dict literal's insertion order; a sheet is the list of its rows.
 */
module Report {
  import opened Wrappers

  /**
   * One spreadsheet cell. `Shown(v, unit)` is an f-string rendering of the
   * number `v` followed by `unit` (`f'{v} 원'`, `f'{v:.2f}%'`); the digits
   * themselves are not modelled.
   */
  datatype Cell =
    | Text(text: string)
    | Number(value: real)
    | Shown(value: real, unit: string)
    | Day(day: int)

  /** A result key: a fixed title, or one built from the period (`f'{period_weeks}주 평균 ...'`). */
  datatype Key = Title(text: string) | PeriodTitle(weeks: int, text: string)

  type Dict = seq<(Key, Cell)>

  const DateKey: Key := Title("현재 날짜")
  const PeriodKey: Key := Title("기간")

  /** A dict literal never holds the same key twice. */
  ghost predicate DistinctKeys(d: Dict) {
    forall i, j :: 0 <= i < j < |d| ==> d[i].0 != d[j].0
  }

  /** No key occurs twice in a list of keys. */
  ghost predicate Distinct(keys: seq<Key>) {
    forall i, j :: 0 <= i < j < |keys| ==> keys[i] != keys[j]
  }

  /** No key at a position in `lo..hi` occurs again later in the list. */
  ghost predicate DistinctFrom(keys: seq<Key>, lo: int, hi: int) {
    forall i, j :: 0 <= i && lo <= i < hi && i < j < |keys| ==> keys[i] != keys[j]
  }

  /** Adjacent ranges of positions join, and the full range means the list is distinct. */
  lemma DistinctJoin(keys: seq<Key>, lo: int, m: int, hi: int)
    requires lo <= m <= hi && DistinctFrom(keys, lo, m) && DistinctFrom(keys, m, hi)
    ensures DistinctFrom(keys, lo, hi)
    ensures lo <= 0 && |keys| <= hi ==> Distinct(keys)
  {
  }

  /** A dict literal: keys paired with their values in writing order. */
  function Entries(keys: seq<Key>, cells: seq<Cell>): (d: Dict)
    requires |keys| == |cells|
    ensures |d| == |keys| && Values(d) == cells
    ensures forall i :: 0 <= i < |d| ==> d[i].0 == keys[i]
    ensures Distinct(keys) ==> DistinctKeys(d)
  {
    seq(|keys|, i requires 0 <= i < |keys| == |cells| => (keys[i], cells[i]))
  }

  /** `list(data.values())` */
  function Values(d: Dict): seq<Cell> {
    seq(|d|, i requires 0 <= i < |d| => d[i].1)
  }

  /** `data[k]`: the value stored under `k`, or nothing (a `KeyError`). */
  function Get(d: Dict, k: Key): (r: Option<Cell>)
    ensures r.Some? <==> exists i :: 0 <= i < |d| && d[i].0 == k
    ensures r.Some? ==> (k, r.value) in d
  {
    if |d| == 0 then None
    else if d[0].0 == k then Some(d[0].1)
    else
      assert forall i :: 1 <= i < |d| ==> d[i] == d[1..][i - 1];
      Get(d[1..], k)
  }

  /**
   * `[data['현재 날짜'], data['기간']] + list(data.values())[2:]`: the row the
   * single-run scripts append, or the key whose lookup raises `KeyError`.
   */
  function SheetRow(d: Dict): (r: Result<seq<Cell>, Key>)
    ensures r.Failure? <==> Get(d, DateKey).None? || Get(d, PeriodKey).None?
  {
    match Get(d, DateKey)
    case None => Failure(DateKey)
    case Some(date) =>
      match Get(d, PeriodKey)
      case None => Failure(PeriodKey)
      case Some(period) =>
        Success([date, period] + (if |d| >= 2 then Values(d)[2..] else []))
  }

  /**
   * When the date and the period are the first two entries, the appended row
   * is exactly the dict's values in insertion order.
   */
  lemma SheetRowIsValues(d: Dict)
    requires |d| >= 2 && d[0].0 == DateKey && d[1].0 == PeriodKey
    ensures SheetRow(d) == Success(Values(d))
    ensures |Values(d)| == |d|
  {
    assert Get(d, DateKey) == Some(d[0].1);
    assert Get(d[1..], PeriodKey) == Some(d[1].1);
    assert Values(d) == [d[0].1, d[1].1] + Values(d)[2..];
  }

  /** What one single run produces: the result dict, the row appended to the sheet and the chat message, if any. */
  datatype Outcome = Outcome(result: Dict, row: seq<Cell>, notification: Option<string>)

  /** A worksheet, seen as the list of its rows. */
  class Worksheet {
    var rows: seq<seq<Cell>>

    constructor ()
      ensures rows == []
    {
      rows := [];
    }

    /** `sheet.clear()` */
    method Clear()
      modifies this
      ensures rows == []
    {
      rows := [];
    }

    /** `sheet.append_row(row)` */
    method AppendRow(row: seq<Cell>)
      modifies this
      ensures rows == old(rows) + [row]
    {
      rows := rows + [row];
    }

    /** `sheet.append_rows(more)` */
    method AppendRows(more: seq<seq<Cell>>)
      modifies this
      ensures rows == old(rows) + more
    {
      rows := rows + more;
    }
  }

  /**
   * `record_to_sheet` of the single-run scripts: builds the row and appends it.
   * A missing key raises before anything is appended.
   */
  method RecordToSheet(sheet: Worksheet, data: Dict) returns (missing: Option<Key>)
    modifies sheet
    ensures SheetRow(data).Success? ==> missing == None && sheet.rows == old(sheet.rows) + [SheetRow(data).value]
    ensures SheetRow(data).Failure? ==> missing == Some(SheetRow(data).error) && sheet.rows == old(sheet.rows)
  {
    match SheetRow(data)
    case Success(row) =>
      sheet.AppendRow(row);
      missing := None;
    case Failure(k) =>
      missing := Some(k);
  }

  /** A header row: every title as a text cell. */
  function Header(titles: seq<string>): (h: seq<Cell>)
    ensures |h| == |titles|
    ensures forall i :: 0 <= i < |titles| ==> h[i] == Text(titles[i])
  {
    seq(|titles|, i requires 0 <= i < |titles| => Text(titles[i]))
  }

  /**
   * `record_to_sheet` of the historical scripts: clear the sheet, append the
   * header, then append every row in order.
   */
  method ReplaceSheet(sheet: Worksheet, titles: seq<string>, data: seq<seq<Cell>>)
    modifies sheet
    ensures sheet.rows == [Header(titles)] + data
  {
    sheet.Clear();
    sheet.AppendRow(Header(titles));
    sheet.AppendRows(data);
  }
}
