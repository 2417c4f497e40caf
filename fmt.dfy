/**
 * The currency table the `rich` front end prints: which header carries the sort indicator,
 * the columns, and the text of every cell. The table is kept as header and row strings;
 * laying it out and printing it are not modelled.
 */
module Fmt {
  import opened Wrappers
  import opened Decimals
  import Text
  import opened Utils
  import opened Models
  import opened Client

  /** The console styles of the configuration, as `rich` markup names. */
  datatype Styles = Styles(
    table: string, name: string, value: string,
    valueChangeZero: string, valueChangePlus: string, valueChangeMinus: string)

  /** The table characters of the configuration: the border and the two sort glyphs. */
  datatype TableChars = TableChars(border: string, sortAscend: string, sortDescend: string)

  /** The quantization settings: the digit policy for values, and fixed digits for changes. */
  datatype QuantizeConfig = QuantizeConfig(
    valueDecimalDigits: map<nat, int>, valueChangeDecimalDigits: int, valueChangeNormalize: bool)

  /** `indent_text(title, indent)`: the title after `indent` spaces. */
  function IndentText(title: string, indent: int): (r: string)
    ensures indent >= 0 ==> |r| == indent + |title| && r[indent..] == title
    ensures forall i :: 0 <= i < |r| - |title| ==> r[i] == ' '
  {
    Text.Spaces(indent) + title
  }

  /** The glyph for the sort order, shown only when more than one currency is listed. */
  function SortIndicator(count: nat, order: SortOrder, chars: TableChars): (r: string)
    ensures count <= 1 ==> r == ""
    ensures count > 1 ==> r == (if order == Ascend then chars.sortAscend else chars.sortDescend)
  {
    if count > 1 then (if order == Ascend then chars.sortAscend else chars.sortDescend) else ""
  }

  /** `add_sort_indicator(title)`. */
  function AddSortIndicator(indicator: string, title: string): string {
    indicator + " " + Text.Strip(title)
  }

  // The positions of the nine titles.
  const NameTitle := 0
  const PriceTitle := 1
  const PriceChangeTitle := 2
  const TvlTitle := 3
  const TvlChangeTitle := 4
  const Volume24hTitle := 5
  const Volume24hChangeTitle := 6
  const Volume7dTitle := 7
  const Transactions24hTitle := 8

  const DefaultTitles: seq<string> := ["Name", "Price", "%", "TVL", "%", "24h Volume", "%", "7d Volume", "24h Tr-s"]

  /** The title each sort option would mark. */
  function TitleOf(sort: CurrencySortBy): nat {
    match sort
    case Price => PriceTitle
    case PriceChange => PriceChangeTitle
    case Tvl => TvlTitle
    case TvlChange => TvlChangeTitle
    case Volume24h => Volume24hTitle
    case Volume24hChange => Volume24hChangeTitle
    case Volume7d => Volume7dTitle
    case TransactionCount24h => Transactions24hTitle
  }

  function Mark(indicator: string, i: nat): seq<string>
    requires i < |DefaultTitles|
  {
    DefaultTitles[i := AddSortIndicator(indicator, DefaultTitles[i])]
  }

  /**
   * The `if`/`elif` chain over the sort option. Its sixth test reads
   * `CurrencySortBy.volume_change_24h`, which is not a member, so every option that reaches
   * it raises AttributeError.
   */
  function SortTitles(sort: CurrencySortBy, indicator: string): Result<seq<string>, Error> {
    if sort == Price then Success(Mark(indicator, PriceTitle))
    else if sort == PriceChange then Success(Mark(indicator, PriceChangeTitle))
    else if sort == Tvl then Success(Mark(indicator, TvlTitle))
    else if sort == TvlChange then Success(Mark(indicator, TvlChangeTitle))
    else if sort == Volume24h then Success(Mark(indicator, Volume24hTitle))
    else Failure(AttributeError("volume_change_24h"))
  }

  /**
   * The chain fails exactly for the three options after its broken test; otherwise exactly the
   * sort's own title becomes `indicator + " " + title.strip()` and the others stay as they were.
   */
  lemma SortTitlesMarksOne(sort: CurrencySortBy, indicator: string)
    ensures SortTitles(sort, indicator).Failure? <==>
      sort == Volume24hChange || sort == Volume7d || sort == TransactionCount24h
    ensures SortTitles(sort, indicator).Success? ==>
      var t := SortTitles(sort, indicator).value;
      && |t| == |DefaultTitles|
      && t[TitleOf(sort)] == indicator + " " + DefaultTitles[TitleOf(sort)]
      && forall i :: 0 <= i < |t| && i != TitleOf(sort) ==> t[i] == DefaultTitles[i]
  {
    SortTitlesFailure(sort, indicator);
    if SortTitles(sort, indicator).Success? {
      SortTitlesMarked(sort, indicator);
    }
  }

  lemma SortTitlesFailure(sort: CurrencySortBy, indicator: string)
    ensures SortTitles(sort, indicator).Failure? <==>
      sort == Volume24hChange || sort == Volume7d || sort == TransactionCount24h
  {
  }

  lemma SortTitlesMarked(sort: CurrencySortBy, indicator: string)
    requires SortTitles(sort, indicator).Success?
    ensures var t := SortTitles(sort, indicator).value;
      && |t| == |DefaultTitles|
      && t[TitleOf(sort)] == indicator + " " + DefaultTitles[TitleOf(sort)]
      && forall i :: 0 <= i < |t| && i != TitleOf(sort) ==> t[i] == DefaultTitles[i]
  {
    SortTitlesMark(sort, indicator);
    MarkOne(indicator, TitleOf(sort));
  }

  lemma MarkOne(indicator: string, i: nat)
    requires i < |DefaultTitles|
    ensures var t := Mark(indicator, i);
      && |t| == |DefaultTitles|
      && t[i] == indicator + " " + DefaultTitles[i]
      && forall j :: 0 <= j < |t| && j != i ==> t[j] == DefaultTitles[j]
  {
    TitleStripped(i);
    MarkAt(DefaultTitles, indicator, i);
  }

  lemma SortTitlesMark(sort: CurrencySortBy, indicator: string)
    requires SortTitles(sort, indicator).Success?
    ensures SortTitles(sort, indicator).value == Mark(indicator, TitleOf(sort))
  {
    match sort
    case Price =>
    case PriceChange =>
    case Tvl =>
    case TvlChange =>
    case Volume24h =>
  }

  /** Marking replaces title `i` by its stripped form behind the indicator and keeps the rest. */
  lemma MarkAt(titles: seq<string>, indicator: string, i: nat)
    requires i < |titles| && Text.Strip(titles[i]) == titles[i]
    ensures var t := titles[i := AddSortIndicator(indicator, titles[i])];
      && |t| == |titles|
      && t[i] == indicator + " " + titles[i]
      && forall j :: 0 <= j < |titles| && j != i ==> t[j] == titles[j]
  {
  }

  /** The default titles have no surrounding white space. */
  lemma TitleStripped(i: nat)
    requires i < |DefaultTitles|
    ensures Text.Strip(DefaultTitles[i]) == DefaultTitles[i]
  {
    var t := DefaultTitles[i];
    assert t[0] != ' ' && t[|t| - 1] != ' ' by {
      assert i == 0 || i == 1 || i == 2 || i == 3 || i == 4 || i == 5 || i == 6 || i == 7 || i == 8;
    }
    assert !Text.IsSpace(t[0]) && !Text.IsSpace(t[|t| - 1]);
    Text.StripKeeps(t);
  }

  /** What a column of the table shows; `title` is the position of the title over it. */
  datatype Column = NameColumn | BorderColumn | ValueColumn(title: nat) | ChangeColumn(title: nat)

  /**
   * The columns in table order: the name, then price, TVL, 24h volume (each a value and its
   * change) and 7d volume, each group behind a border, and the transaction count, behind a
   * border of its own, when it is shown.
   */
  function Layout(showTransCount: bool): (cs: seq<Column>)
    ensures |cs| == if showTransCount then 14 else 12
  {
    [NameColumn,
     BorderColumn, ValueColumn(PriceTitle), ChangeColumn(PriceChangeTitle),
     BorderColumn, ValueColumn(TvlTitle), ChangeColumn(TvlChangeTitle),
     BorderColumn, ValueColumn(Volume24hTitle), ChangeColumn(Volume24hChangeTitle),
     BorderColumn, ValueColumn(Volume7dTitle)]
    + (if showTransCount then [BorderColumn, ValueColumn(Transactions24hTitle)] else [])
  }

  /** True of the columns that carry a title. */
  predicate Titled(col: Column) {
    col.ValueColumn? || col.ChangeColumn?
  }

  /** The column under each title after the name. */
  function ColumnOfTitle(t: nat): nat {
    if t <= 2 then t + 1 else if t <= 4 then t + 2 else if t <= 6 then t + 3 else if t == 7 then 11 else 13
  }

  /**
   * Each title after the name heads exactly one column, the count's title only when the count
   * is shown, and no column carries any other title. Showing the count only appends columns.
   */
  lemma LayoutTitles(showTransCount: bool)
    ensures var cs := Layout(showTransCount);
      && Layout(true)[..12] == Layout(false)
      && (forall i, j :: 0 <= i < j < |cs| && Titled(cs[i]) && Titled(cs[j]) ==> cs[i].title != cs[j].title)
      && (forall i :: 0 <= i < |cs| && Titled(cs[i]) ==> NameTitle < cs[i].title < |DefaultTitles|)
      && (forall t :: NameTitle < t < |DefaultTitles| && (showTransCount || t != Transactions24hTitle) ==>
            var i := ColumnOfTitle(t); i < |cs| && Titled(cs[i]) && cs[i].title == t)
      && (!showTransCount ==> forall i :: 0 <= i < |cs| && Titled(cs[i]) ==> cs[i].title != Transactions24hTitle)
  {
    var cs := Layout(showTransCount);
    forall i | 0 <= i < |cs| && Titled(cs[i])
      ensures cs[i].title == TitleAt(i) && (i in {2, 3, 5, 6, 8, 9, 11, 13})
    {
      assert i in {2, 3, 5, 6, 8, 9, 11, 13};
    }
  }

  /** The title of column `i`, for the titled columns: it grows with `i`. */
  function TitleAt(i: nat): nat {
    if i <= 1 then 0 else if i <= 3 then i - 1 else if i <= 6 then i - 2 else if i <= 9 then i - 3 else if i == 11 then 7 else 8
  }

  /** The header over a column. */
  function HeaderOf(col: Column, titles: seq<string>, border: string): string
    requires |titles| == |DefaultTitles|
  {
    match col
    case NameColumn => IndentText(titles[NameTitle], 1)
    case BorderColumn => IndentText(border, 1)
    case ValueColumn(t) => if t < |titles| then IndentText(titles[t], 1) else ""
    case ChangeColumn(t) => if t < |titles| then titles[t] else ""
  }

  /** The column headers: one per column of the layout, the value titles indented by one. */
  function Headers(titles: seq<string>, border: string, showTransCount: bool): (h: seq<string>)
    requires |titles| == |DefaultTitles|
    ensures |h| == |Layout(showTransCount)|
    ensures forall i :: 0 <= i < |h| ==> h[i] == HeaderOf(Layout(showTransCount)[i], titles, border)
  {
    var header := (col: Column) => HeaderOf(col, titles, border);
    var h :=
      [header(NameColumn), header(BorderColumn),
       header(ValueColumn(PriceTitle)), header(ChangeColumn(PriceChangeTitle)), header(BorderColumn),
       header(ValueColumn(TvlTitle)), header(ChangeColumn(TvlChangeTitle)), header(BorderColumn),
       header(ValueColumn(Volume24hTitle)), header(ChangeColumn(Volume24hChangeTitle)), header(BorderColumn),
       header(ValueColumn(Volume7dTitle))]
      + (if showTransCount then [header(BorderColumn), header(ValueColumn(Transactions24hTitle))] else []);
    LayoutCells(showTransCount, header, h);
    h
  }

  /** `format_value(value)` for a Decimal: `$` and the humanized value quantized by the policy. */
  function FormatValue(value: Dec, prefix: string, style: string, q: QuantizeConfig): string {
    StyledText(IndentText(prefix + HumanizeValue(QuantizeValue(value, None, true, q.valueDecimalDigits)), 1), style)
  }

  /**
   * `format_value(n, prefix='')` for an int: `decimal_digits=0` counts as not given, so the
   * policy still chooses the digits.
   */
  function FormatCount(n: int, style: string, q: QuantizeConfig): string {
    StyledText(IndentText(HumanizeValue(QuantizeValue(DecOfInt(n), Some(0), true, q.valueDecimalDigits)), 1), style)
  }

  /**
   * The sign and style of a change cell, taken from the change before it is rounded: zero
   * (of either sign), positive, or negative.
   */
  function ChangeSign(change: Dec, styles: Styles): (string, string) {
    if change.coeff == 0 then ("", styles.valueChangeZero)
    else if !change.negative then ("+", styles.valueChangePlus)
    else ("", styles.valueChangeMinus)
  }

  /** `format_value_change(change)`: sign, humanized quantized change and `%`, indented by two. */
  function FormatValueChange(change: Dec, styles: Styles, q: QuantizeConfig): string {
    var qh := HumanizeValue(QuantizeValue(change, Some(q.valueChangeDecimalDigits), q.valueChangeNormalize, q.valueDecimalDigits));
    var (prefix, style) := ChangeSign(change, styles);
    StyledText(IndentText(prefix + qh + "%", 2), style)
  }

  /**
   * A value cell reads back as its style and `" $" + humanized`, and the humanized part has
   * no exponent.
   */
  lemma ValueCellParts(value: Dec, style: string, q: QuantizeConfig)
    requires ']' !in style
    ensures var h := HumanizeValue(QuantizeValue(value, None, true, q.valueDecimalDigits));
      && ParseStyled(FormatValue(value, "$", style, q)) == Some((style, " $" + h))
      && 'E' !in h
  {
    var h := HumanizeValue(QuantizeValue(value, None, true, q.valueDecimalDigits));
    StyledTextRoundTrip(IndentText("$" + h, 1), style);
    assert IndentText("$" + h, 1) == " $" + h;
  }

  /**
   * A change cell reads back as the style of the raw change's sign and
   * `"  " + sign + humanized + "%"`, where the sign is `+` exactly for a positive change.
   */
  lemma ChangeCellParts(change: Dec, styles: Styles, q: QuantizeConfig)
    requires ']' !in styles.valueChangeZero && ']' !in styles.valueChangePlus && ']' !in styles.valueChangeMinus
    ensures var qh := HumanizeValue(QuantizeValue(change, Some(q.valueChangeDecimalDigits), q.valueChangeNormalize, q.valueDecimalDigits));
      var style := if Value(change) == 0.0 then styles.valueChangeZero
                   else if Value(change) > 0.0 then styles.valueChangePlus
                   else styles.valueChangeMinus;
      var sign := if Value(change) > 0.0 then "+" else "";
      ParseStyled(FormatValueChange(change, styles, q)) == Some((style, "  " + sign + qh + "%"))
  {
    var qh := HumanizeValue(QuantizeValue(change, Some(q.valueChangeDecimalDigits), q.valueChangeNormalize, q.valueDecimalDigits));
    var (prefix, style) := ChangeSign(change, styles);
    ChangeSignByValue(change, styles);
    ChangeCellText(prefix, qh, style);
  }

  /** The sign and style follow the sign of the number. */
  lemma ChangeSignByValue(change: Dec, styles: Styles)
    ensures ChangeSign(change, styles) ==
      (if Value(change) > 0.0 then "+" else "",
       if Value(change) == 0.0 then styles.valueChangeZero
       else if Value(change) > 0.0 then styles.valueChangePlus
       else styles.valueChangeMinus)
  {
    ValueSign(change);
  }

  lemma ChangeCellText(prefix: string, qh: string, style: string)
    requires ']' !in style
    ensures ParseStyled(StyledText(IndentText(prefix + qh + "%", 2), style)) == Some((style, "  " + prefix + qh + "%"))
  {
    var body := prefix + qh + "%";
    StyledTextRoundTrip(IndentText(body, 2), style);
    IndentTwo(body);
    assert "  " + body == "  " + prefix + qh + "%";
  }

  lemma IndentTwo(x: string)
    ensures IndentText(x, 2) == "  " + x
  {
    assert Text.Spaces(2) == "  ";
  }

  /** The value a value column shows: the price, TVL, 24h or 7d volume named by its title. */
  function ValueOf(c: CurrencyInfo, t: nat): Dec {
    if t == PriceTitle then c.price
    else if t == TvlTitle then c.tvl
    else if t == Volume24hTitle then c.volume24h
    else c.volume7d
  }

  /** The change a change column shows. */
  function ChangeOf(c: CurrencyInfo, t: nat): Dec {
    if t == PriceChangeTitle then c.priceChange
    else if t == TvlChangeTitle then c.tvlChange
    else c.volumeChange24h
  }

  /** The cell of a currency in a column. */
  function CellOf(col: Column, c: CurrencyInfo, styles: Styles, chars: TableChars, q: QuantizeConfig): string {
    match col
    case NameColumn => StyledText(IndentText(c.name, 1), styles.name)
    case BorderColumn => StyledText(IndentText(chars.border, 1), styles.table)
    case ValueColumn(t) =>
      if t == Transactions24hTitle then FormatCount(c.transactionCount24h, styles.value, q)
      else FormatValue(ValueOf(c, t), "$", styles.value, q)
    case ChangeColumn(t) => FormatValueChange(ChangeOf(c, t), styles, q)
  }

  /** One row: one cell per column of the layout, each the currency's field under that title. */
  function CurrencyRow(c: CurrencyInfo, styles: Styles, chars: TableChars, q: QuantizeConfig, showTransCount: bool): (row: seq<string>)
    ensures |row| == |Layout(showTransCount)|
    ensures forall i :: 0 <= i < |row| ==> row[i] == CellOf(Layout(showTransCount)[i], c, styles, chars, q)
  {
    var cell := (col: Column) => CellOf(col, c, styles, chars, q);
    var row :=
      [cell(NameColumn), cell(BorderColumn),
       cell(ValueColumn(PriceTitle)), cell(ChangeColumn(PriceChangeTitle)), cell(BorderColumn),
       cell(ValueColumn(TvlTitle)), cell(ChangeColumn(TvlChangeTitle)), cell(BorderColumn),
       cell(ValueColumn(Volume24hTitle)), cell(ChangeColumn(Volume24hChangeTitle)), cell(BorderColumn),
       cell(ValueColumn(Volume7dTitle))]
      + (if showTransCount then [cell(BorderColumn), cell(ValueColumn(Transactions24hTitle))] else []);
    LayoutCells(showTransCount, cell, row);
    row
  }

  /** A row written out column by column, in layout order, holds the cell of column `i` at `i`. */
  lemma LayoutCells(showTransCount: bool, cell: Column -> string, row: seq<string>)
    requires row ==
      [cell(NameColumn), cell(BorderColumn),
       cell(ValueColumn(PriceTitle)), cell(ChangeColumn(PriceChangeTitle)), cell(BorderColumn),
       cell(ValueColumn(TvlTitle)), cell(ChangeColumn(TvlChangeTitle)), cell(BorderColumn),
       cell(ValueColumn(Volume24hTitle)), cell(ChangeColumn(Volume24hChangeTitle)), cell(BorderColumn),
       cell(ValueColumn(Volume7dTitle))]
      + (if showTransCount then [cell(BorderColumn), cell(ValueColumn(Transactions24hTitle))] else [])
    ensures |row| == |Layout(showTransCount)|
    ensures forall i :: 0 <= i < |row| ==> row[i] == cell(Layout(showTransCount)[i])
  {
  }

  /**
   * Every row has one cell per header, and cell `i` and header `i` belong to the same column
   * of the layout: the price under the price title, each change under its `%`, the count under
   * its title.
   */
  lemma RowFitsHeaders(c: CurrencyInfo, titles: seq<string>, styles: Styles, chars: TableChars, q: QuantizeConfig, showTransCount: bool)
    requires |titles| == |DefaultTitles|
    ensures var row, h, cs := CurrencyRow(c, styles, chars, q, showTransCount), Headers(titles, chars.border, showTransCount), Layout(showTransCount);
      && |row| == |h| == |cs|
      && forall i :: 0 <= i < |h| ==> h[i] == HeaderOf(cs[i], titles, chars.border) && row[i] == CellOf(cs[i], c, styles, chars, q)
  {
  }

  /**
   * Showing the transaction count keeps the twelve columns as they are and appends a border
   * and the count, in the headers and in every row.
   */
  lemma CountColumnsAppended(c: CurrencyInfo, titles: seq<string>, styles: Styles, chars: TableChars, q: QuantizeConfig)
    requires |titles| == |DefaultTitles|
    ensures Headers(titles, chars.border, true) ==
      Headers(titles, chars.border, false) + [IndentText(chars.border, 1), IndentText(titles[Transactions24hTitle], 1)]
    ensures CurrencyRow(c, styles, chars, q, true) ==
      CurrencyRow(c, styles, chars, q, false)
      + [StyledText(IndentText(chars.border, 1), styles.table), FormatCount(c.transactionCount24h, styles.value, q)]
  {
  }

  /** A `rich` grid table, reduced to its header cells and rows of cells. */
  class Table {
    var headers: seq<string>
    var rows: seq<seq<string>>

    constructor()
      ensures headers == [] && rows == []
    {
      headers := [];
      rows := [];
    }

    method AddColumn(header: string)
      modifies this
      ensures headers == old(headers) + [header] && rows == old(rows)
    {
      headers := headers + [header];
    }

    method AddRow(cells: seq<string>)
      modifies this
      ensures rows == old(rows) + [cells] && headers == old(headers)
    {
      rows := rows + [cells];
    }
  }

  /** The row builder of the table: the configuration fixed, a currency in, its cells out. */
  function RowFormatter(styles: Styles, chars: TableChars, q: QuantizeConfig, showTransCount: bool): (f: CurrencyInfo -> seq<string>)
    ensures forall c :: f(c) == CurrencyRow(c, styles, chars, q, showTransCount)
  {
    c => CurrencyRow(c, styles, chars, q, showTransCount)
  }

  /**
   * `print_currencies_info` up to the point where the table is printed: the indicator, the
   * titles, the columns, and one row per currency in the order given.
   */
  method CurrenciesTable(currencies: seq<CurrencyInfo>, sort: CurrencySortBy, order: SortOrder,
                         showTransCount: bool, styles: Styles, chars: TableChars, q: QuantizeConfig)
    returns (r: Result<Table, Error>)
    ensures var titles := SortTitles(sort, SortIndicator(|currencies|, order, chars));
      && (titles.Failure? <==> r.Failure?)
      && (r.Failure? ==> r.error == titles.error)
      && (r.Success? ==>
            && fresh(r.value)
            && r.value.headers == Headers(titles.value, chars.border, showTransCount)
            && |r.value.rows| == |currencies|
            && forall i :: 0 <= i < |currencies| ==>
                 r.value.rows[i] == CurrencyRow(currencies[i], styles, chars, q, showTransCount))
  {
    var indicator := SortIndicator(|currencies|, order, chars);
    var titles :- SortTitles(sort, indicator);
    var table := BuildTable(titles, chars.border, showTransCount, currencies, RowFormatter(styles, chars, q, showTransCount));
    r := Success(table);
  }

  /** A new table with the headers for `titles` and one row per currency, built by `rowOf`. */
  method BuildTable(titles: seq<string>, border: string, showTransCount: bool,
                    currencies: seq<CurrencyInfo>, rowOf: CurrencyInfo -> seq<string>)
    returns (table: Table)
    requires |titles| == |DefaultTitles|
    ensures fresh(table)
    ensures table.headers == Headers(titles, border, showTransCount)
    ensures |table.rows| == |currencies|
    ensures forall i :: 0 <= i < |currencies| ==> table.rows[i] == rowOf(currencies[i])
  {
    table := new Table();
    AddColumns(table, Headers(titles, border, showTransCount));
    AddRows(table, currencies, rowOf);
  }

  /**
   * The `add_column` calls for the headers `hs` in table order: the name, then each group
   * behind its border, where the count (with its border) comes last when there are fourteen.
   */
  method AddColumns(table: Table, hs: seq<string>)
    requires |hs| == 12 || |hs| == 14
    modifies table
    ensures table.headers == old(table.headers) + hs
    ensures table.rows == old(table.rows)
  {
    table.AddColumn(hs[0]);
    AddBorderedColumns(table, hs[1], hs[2], [hs[3]]);
    AddBorderedColumns(table, hs[4], hs[5], [hs[6]]);
    AddBorderedColumns(table, hs[7], hs[8], [hs[9]]);
    AddBorderedColumns(table, hs[10], hs[11], []);
    if |hs| == 14 {
      AddBorderedColumns(table, hs[12], hs[13], []);
      assert hs == hs[..12] + [hs[12], hs[13]];
    }
  }

  /** A border column, a value column and, when there is one, its change column. */
  method AddBorderedColumns(table: Table, border: string, value: string, change: seq<string>)
    requires |change| <= 1
    modifies table
    ensures table.headers == old(table.headers) + [border, value] + change
    ensures table.rows == old(table.rows)
  {
    table.AddColumn(border);
    table.AddColumn(value);
    if change != [] {
      table.AddColumn(change[0]);
      assert change == [change[0]];
    }
  }

  /** The row loop: one `add_row` per currency, in the order given, each row built by `rowOf`. */
  method AddRows(table: Table, currencies: seq<CurrencyInfo>, rowOf: CurrencyInfo -> seq<string>)
    modifies table
    ensures table.headers == old(table.headers)
    ensures |table.rows| == |old(table.rows)| + |currencies|
    ensures table.rows[..|old(table.rows)|] == old(table.rows)
    ensures forall i :: 0 <= i < |currencies| ==> table.rows[|old(table.rows)| + i] == rowOf(currencies[i])
  {
    var i := 0;
    while i < |currencies|
      invariant 0 <= i <= |currencies|
      invariant table.headers == old(table.headers)
      invariant |table.rows| == |old(table.rows)| + i
      invariant table.rows[..|old(table.rows)|] == old(table.rows)
      invariant forall j :: 0 <= j < i ==> table.rows[|old(table.rows)| + j] == rowOf(currencies[j])
    {
      var row := rowOf(currencies[i]);
      table.AddRow(row);
      i := i + 1;
    }
  }
}
