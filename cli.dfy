/**
 * The older terminal front end: a currency table laid out by hand with padded columns and
 * `click.style` colours, and the choice of currency names for the `show` command. Styled
 * output is kept as a sequence of pieces, each a text with its colour or none; the escape
 * codes `click.style` adds are not modelled.
 */
module Cli {
  import opened Wrappers
  import opened Decimals
  import Text
  import opened Utils
  import opened Models
  import Fmt

  /** The sort options of the command, by the member names the table code tests. */
  datatype SortOption = Price | PriceChange | Tvl | TvlChange | Volume24h | Volume24hChange | Volume7d

  datatype SortOrder = Ascend | Descend

  /** A `click.style` colour: foreground name and bold flag. */
  datatype Color = Color(fg: string, bold: bool)

  /** The colours of the configuration that the table uses. */
  datatype Colors = Colors(
    value: Color, valueChangeZero: Color, valueChangeMinus: Color, valueChangePlus: Color,
    table: Color, name: Color)

  /** A piece of terminal output: its text, styled with a colour, or plain. */
  datatype Piece = Piece(color: Option<Color>, text: string)

  /** The characters a sequence of pieces shows. */
  function Visible(ps: seq<Piece>): string {
    if ps == [] then "" else ps[0].text + Visible(ps[1..])
  }

  lemma {:induction false} VisibleAppend(a: seq<Piece>, b: seq<Piece>)
    ensures Visible(a + b) == Visible(a) + Visible(b)
  {
    if a != [] {
      VisibleAppend(a[1..], b);
      assert (a + b)[1..] == a[1..] + b;
    } else {
      assert a + b == b;
    }
  }

  /** The errors the front end can end with. */
  datatype CliError = ValueError(message: string) | UsageError(message: string) | KeyError(key: string)

  /** Sign and colour of a change: blank for zero, none for negative, `+` otherwise. */
  function ChangeSign(change: Dec, colors: Colors): (string, Color) {
    if change.coeff == 0 then (" ", colors.valueChangeZero)
    else if change.negative then ("", colors.valueChangeMinus)
    else ("+", colors.valueChangePlus)
  }

  /** The sign is blank exactly for zero, empty exactly for a negative number and `+` exactly for a positive one. */
  lemma ChangeSignMeets(change: Dec, colors: Colors)
    ensures ChangeSign(change, colors).0 == " " <==> Value(change) == 0.0
    ensures ChangeSign(change, colors).0 == "" <==> Value(change) < 0.0
    ensures ChangeSign(change, colors).0 == "+" <==> Value(change) > 0.0
  {
    ValueSign(change);
  }

  /** The value part of a cell: `$` and the humanized value right-justified in `max + 1`, between spaces. */
  function ValueText(value: Dec, valueMaxLen: nat): string {
    " " + Text.RJust("$" + HumanizeValue(value), valueMaxLen + 1) + " "
  }

  /** The change part of a cell: sign and humanized change right-justified in `max`, then `% `. */
  function ChangeText(change: Dec, sign: string, changeMaxLen: nat): string {
    " " + Text.RJust(sign + HumanizeValue(change), changeMaxLen) + "% "
  }

  /**
   * `format_value(title, value_max_len, value, value_change_max_len, value_change)`: the value
   * piece and, when both the change and its width are given, the change piece, framed for the
   * title; the length compared with the title's is that of the two parts' text.
   */
  function FormatValue(title: string, valueMaxLen: nat, value: Dec, changeMaxLen: Option<nat>,
                       change: Option<Dec>, colors: Colors): (seq<Piece>, int) {
    Frame(title, CellParts(valueMaxLen, value, changeMaxLen, change, colors),
          |CellCore(valueMaxLen, value, changeMaxLen, change, colors)|, colors.table)
  }

  /** The value piece in the value colour and, given both, the change piece in its sign's colour. */
  function CellParts(valueMaxLen: nat, value: Dec, changeMaxLen: Option<nat>, change: Option<Dec>, colors: Colors): seq<Piece> {
    var vp := Piece(Some(colors.value), ValueText(value, valueMaxLen));
    if changeMaxLen.Some? && change.Some? then
      var (sign, color) := ChangeSign(change.value, colors);
      [vp, Piece(Some(color), ChangeText(change.value, sign, changeMaxLen.value))]
    else
      [vp]
  }

  /**
   * The end of `format_value`: spaces in front when the `valueLen` characters of the cell are
   * fewer than the title's, then the border in front, and the width reported for the header.
   */
  function Frame(title: string, parts: seq<Piece>, valueLen: int, border: Color): (seq<Piece>, int) {
    var (padded, paddedLen) :=
      if valueLen < |title| then
        var indent := |title| - valueLen + 1;
        ([Piece(None, Text.Spaces(indent))] + parts, valueLen + indent)
      else
        (parts, valueLen);
    ([Piece(Some(border), "│")] + padded, paddedLen - 1)
  }

  /**
   * The frame shows the border, then spaces only when the parts are shorter than the title, then
   * the parts. The reported width is the shown length less the border and one more; it is the
   * title's length when padding was added, and never less than that length minus one.
   */
  lemma FrameMeets(title: string, parts: seq<Piece>, valueLen: int, border: Color)
    requires valueLen == |Visible(parts)|
    ensures var (ps, w) := Frame(title, parts, valueLen, border);
      var pad := if valueLen < |title| then Text.Spaces(|title| - valueLen + 1) else "";
      && Visible(ps) == "│" + pad + Visible(parts)
      && |ps| == |parts| + 1 + (if valueLen < |title| then 1 else 0)
      && w == |Visible(ps)| - 2
      && (valueLen < |title| ==> w == |title|)
      && w >= |title| - 1
  {
    var pad := if valueLen < |title| then Text.Spaces(|title| - valueLen + 1) else "";
    var padding: seq<Piece> := if valueLen < |title| then [Piece(None, pad)] else [];
    var bar := Piece(Some(border), "│");
    assert Frame(title, parts, valueLen, border).0 == [bar] + padding + parts;
    VisibleAppend([bar] + padding, parts);
    VisibleAppend([bar], padding);
    VisibleOne(bar);
    if padding != [] {
      VisibleOne(padding[0]);
    }
  }

  /** The text of a cell without its border and padding: the value part and, given both, the change part. */
  function CellCore(valueMaxLen: nat, value: Dec, changeMaxLen: Option<nat>, change: Option<Dec>, colors: Colors): string {
    ValueText(value, valueMaxLen)
    + (if changeMaxLen.Some? && change.Some?
       then ChangeText(change.value, ChangeSign(change.value, colors).0, changeMaxLen.value)
       else "")
  }

  /**
   * A cell shows the border, then spaces only when the value and change parts are shorter than
   * the title, then those parts; the change part is there exactly when both the change and its
   * width are given. The reported width is the shown length less the border and one more; it is
   * the title's length when padding was added, and never less than that length minus one.
   */
  lemma FormatValueMeets(title: string, valueMaxLen: nat, value: Dec, changeMaxLen: Option<nat>,
                         change: Option<Dec>, colors: Colors)
    ensures var (ps, w) := FormatValue(title, valueMaxLen, value, changeMaxLen, change, colors);
      var core := CellCore(valueMaxLen, value, changeMaxLen, change, colors);
      var pad := if |core| < |title| then Text.Spaces(|title| - |core| + 1) else "";
      && Visible(ps) == "│" + pad + core
      && |ps| == (if changeMaxLen.Some? && change.Some? then 3 else 2) + (if |core| < |title| then 1 else 0)
      && w == |Visible(ps)| - 2
      && (|core| < |title| ==> w == |title|)
      && w >= |title| - 1
  {
    CellPartsShow(valueMaxLen, value, changeMaxLen, change, colors);
    FrameMeets(title, CellParts(valueMaxLen, value, changeMaxLen, change, colors),
               |CellCore(valueMaxLen, value, changeMaxLen, change, colors)|, colors.table);
  }

  /** The parts show the core text: one piece, or two with the change. */
  lemma CellPartsShow(valueMaxLen: nat, value: Dec, changeMaxLen: Option<nat>, change: Option<Dec>, colors: Colors)
    ensures var parts := CellParts(valueMaxLen, value, changeMaxLen, change, colors);
      && Visible(parts) == CellCore(valueMaxLen, value, changeMaxLen, change, colors)
      && |parts| == if changeMaxLen.Some? && change.Some? then 2 else 1
  {
    var vp := Piece(Some(colors.value), ValueText(value, valueMaxLen));
    VisibleOne(vp);
    if changeMaxLen.Some? && change.Some? {
      var (sign, color) := ChangeSign(change.value, colors);
      var cp := Piece(Some(color), ChangeText(change.value, sign, changeMaxLen.value));
      VisibleAppend([vp], [cp]);
      VisibleOne(cp);
      assert [vp] + [cp] == [vp, cp];
    }
  }

  lemma VisibleOne(p: Piece)
    ensures Visible([p]) == p.text
  {
    assert [p][1..] == [];
  }

  /** The greatest of a non-empty list of numbers, Python's `max`. */
  function MaxOf(xs: seq<int>): (m: int)
    requires |xs| > 0
    ensures m in xs
    ensures forall i :: 0 <= i < |xs| ==> xs[i] <= m
  {
    if |xs| == 1 then xs[0]
    else
      var rest := MaxOf(xs[1..]);
      assert forall i :: 1 <= i < |xs| ==> xs[i] == xs[1..][i - 1];
      if xs[0] >= rest then xs[0] else rest
  }

  /** The lengths of a list of strings. */
  function Lengths(ss: seq<string>): (ls: seq<int>)
    ensures |ls| == |ss| && forall i :: 0 <= i < |ss| ==> ls[i] == |ss[i]|
  {
    seq(|ss|, i requires 0 <= i < |ss| => |ss[i]|)
  }

  const NameTitle := "Name"

  /** The width of the name column: the longest of the names and of the title `Name`. */
  function NameMaxLen(names: seq<string>): nat {
    var m := MaxOf(Lengths(names + [NameTitle]));
    assert Lengths(names + [NameTitle])[|names|] == 4;
    m
  }

  /** No name and not the title is longer than the column, and the column is as wide as one of them. */
  lemma NameMaxLenMeets(names: seq<string>)
    ensures NameMaxLen(names) >= |NameTitle|
    ensures forall i :: 0 <= i < |names| ==> |names[i]| <= NameMaxLen(names)
    ensures NameMaxLen(names) == |NameTitle| || exists i :: 0 <= i < |names| && NameMaxLen(names) == |names[i]|
  {
    var all := names + [NameTitle];
    var ls := Lengths(all);
    assert ls[|names|] == |NameTitle|;
    forall i | 0 <= i < |names|
      ensures |names[i]| <= NameMaxLen(names)
    {
      assert ls[i] == |names[i]|;
    }
    var m := NameMaxLen(names);
    var k :| 0 <= k < |ls| && ls[k] == m;
    if k < |names| {
      assert m == |names[k]|;
    }
  }

  /** `max_lens(values)`: the widest value and the widest change; `max` fails on an empty list. */
  function MaxLens(values: seq<(Dec, Dec)>, lenDecimal: (Dec, bool) -> nat): (r: Result<(nat, nat), CliError>)
    ensures r.Failure? <==> values == []
    ensures r.Success? ==>
      && (forall i :: 0 <= i < |values| ==> lenDecimal(values[i].0, false) <= r.value.0 && lenDecimal(values[i].1, true) <= r.value.1)
      && (exists i :: 0 <= i < |values| && lenDecimal(values[i].0, false) == r.value.0)
      && (exists j :: 0 <= j < |values| && lenDecimal(values[j].1, true) == r.value.1)
  {
    if values == [] then Failure(EmptyMax)
    else
      var vs := seq(|values|, i requires 0 <= i < |values| => lenDecimal(values[i].0, false));
      var cs := seq(|values|, i requires 0 <= i < |values| => lenDecimal(values[i].1, true));
      var v, c := MaxOf(vs), MaxOf(cs);
      assert forall i :: 0 <= i < |values| ==> vs[i] == lenDecimal(values[i].0, false);
      assert forall i :: 0 <= i < |values| ==> cs[i] == lenDecimal(values[i].1, true);
      Success((v, c))
  }

  /** Python's message for `max` over an empty sequence. */
  const EmptyMax := ValueError("max() arg is an empty sequence")

  /** The sort glyphs of the four value columns: price, TVL, 24h volume and 7d volume. */
  datatype Indicators = Indicators(price: string, tvl: string, volume24h: string, volume7d: string)

  /**
   * The indicator for each value column: the order's glyph, with `%` for a change sort, on the
   * column of the sort, and only when more than one currency is shown.
   */
  function SortIndicators(count: nat, sort: SortOption, order: SortOrder): Indicators {
    var glyph := if count > 1 then (if order == Ascend then " ▴" else " ▾") else "";
    var changeGlyph := if count > 1 then "%" else "";
    Indicators(
      if sort == Price then glyph else if sort == PriceChange then glyph + changeGlyph else "",
      if sort == Tvl then glyph else if sort == TvlChange then glyph + changeGlyph else "",
      if sort == Volume24h then glyph else if sort == Volume24hChange then glyph + changeGlyph else "",
      if sort == Volume7d then glyph else "")
  }

  /** The value column a sort option belongs to: 0 price, 1 TVL, 2 24h volume, 3 7d volume. */
  function ColumnOf(sort: SortOption): nat {
    match sort
    case Price => 0
    case PriceChange => 0
    case Tvl => 1
    case TvlChange => 1
    case Volume24h => 2
    case Volume24hChange => 2
    case Volume7d => 3
  }

  predicate IsChangeSort(sort: SortOption) {
    sort == PriceChange || sort == TvlChange || sort == Volume24hChange
  }

  function IndicatorAt(ind: Indicators, k: nat): string {
    if k == 0 then ind.price else if k == 1 then ind.tvl else if k == 2 then ind.volume24h else ind.volume7d
  }

  /**
   * Only the sort's own column carries an indicator; it is empty unless more than one currency
   * is shown, and then it is the order's glyph followed by `%` for a change sort.
   */
  lemma SortIndicatorsMeets(count: nat, sort: SortOption, order: SortOrder)
    ensures var ind := SortIndicators(count, sort, order);
      && (forall k :: 0 <= k < 4 && k != ColumnOf(sort) ==> IndicatorAt(ind, k) == "")
      && IndicatorAt(ind, ColumnOf(sort)) ==
           if count <= 1 then ""
           else (if order == Ascend then " ▴" else " ▾") + (if IsChangeSort(sort) then "%" else "")
  {
  }

  /** The titles of the four value columns. */
  datatype Titles = Titles(price: string, tvl: string, volume24h: string, volume7d: string)

  function TitlesOf(ind: Indicators): Titles {
    Titles(" Price" + ind.price, " TVL" + ind.tvl, " 24h Volume" + ind.volume24h, " 7d Volume" + ind.volume7d)
  }

  /** The column widths: the name column and each value and change column. */
  datatype Lens = Lens(
    name: nat, price: nat, priceChange: nat, tvl: nat, tvlChange: nat,
    volume24h: nat, volume24hChange: nat, volume7d: nat)

  /** The widths each value cell of a line reports. */
  datatype Widths = Widths(price: int, tvl: int, volume24h: int, volume7d: int)

  /** The five lists the first loop fills, one entry per currency. */
  datatype Columns = Columns(
    names: seq<string>, price: seq<(Dec, Dec)>, tvl: seq<(Dec, Dec)>,
    volume24h: seq<(Dec, Dec)>, volume7d: seq<Dec>)
  {
    predicate Aligned() {
      |price| == |names| && |tvl| == |names| && |volume24h| == |names| && |volume7d| == |names|
    }
  }

  /** `quantize_value(value)`: the policy's digits, normalized. */
  function QuantizeAmount(value: Dec, q: Fmt.QuantizeConfig): Dec {
    QuantizeValue(value, None, true, q.valueDecimalDigits)
  }

  /** `quantize_value_change(value_change)`: the configured digits and normalization. */
  function QuantizeChange(change: Dec, q: Fmt.QuantizeConfig): Dec {
    QuantizeValue(change, Some(q.valueChangeDecimalDigits), q.valueChangeNormalize, q.valueDecimalDigits)
  }

  /** One element of `zip(names, price_values, tvl_values, volume_24h_values, volume_7d_values)`. */
  datatype Entry = Entry(name: string, price: (Dec, Dec), tvl: (Dec, Dec), volume24h: (Dec, Dec), volume7d: Dec)

  /** What the first loop appends for one currency: its name, and each value with its change quantized. */
  function QuantizedEntry(c: CurrencyInfo, q: Fmt.QuantizeConfig): Entry {
    Entry(c.name,
      (QuantizeAmount(c.price, q), QuantizeChange(c.priceChange, q)),
      (QuantizeAmount(c.tvl, q), QuantizeChange(c.tvlChange, q)),
      (QuantizeAmount(c.volume24h, q), QuantizeChange(c.volumeChange24h, q)),
      QuantizeAmount(c.volume7d, q))
  }

  /** The entry builder with the quantization settings fixed. */
  function EntryMaker(q: Fmt.QuantizeConfig): (f: CurrencyInfo -> Entry)
    ensures forall c :: f(c) == QuantizedEntry(c, q)
  {
    c => QuantizedEntry(c, q)
  }

  /** The entries as five lists, one per field. */
  function Unzip(es: seq<Entry>): (cols: Columns)
    ensures cols.Aligned() && |cols.names| == |es|
  {
    var n := |es|;
    Columns(
      seq(n, i requires 0 <= i < n => es[i].name),
      seq(n, i requires 0 <= i < n => es[i].price),
      seq(n, i requires 0 <= i < n => es[i].tvl),
      seq(n, i requires 0 <= i < n => es[i].volume24h),
      seq(n, i requires 0 <= i < n => es[i].volume7d))
  }

  /** Five lists of one length as their list of entries, Python's `zip`. */
  function Zip(cols: Columns): (es: seq<Entry>)
    requires cols.Aligned()
    ensures |es| == |cols.names|
  {
    seq(|cols.names|, i requires 0 <= i < |cols.names| =>
      Entry(cols.names[i], cols.price[i], cols.tvl[i], cols.volume24h[i], cols.volume7d[i]))
  }

  /** Zipping the unzipped lists gives the entries back, and unzipping zipped lists gives the lists back. */
  lemma ZipUnzip(es: seq<Entry>, cols: Columns)
    requires cols.Aligned()
    ensures Zip(Unzip(es)) == es
    ensures Unzip(Zip(cols)) == cols
  {
    var zs := Zip(Unzip(es));
    assert forall i :: 0 <= i < |es| ==> zs[i] == es[i];
    var us := Unzip(Zip(cols));
    assert us.names == cols.names && us.price == cols.price && us.tvl == cols.tvl;
    assert us.volume24h == cols.volume24h && us.volume7d == cols.volume7d;
  }

  /** The lists the first loop builds: each currency's entry, in the order given. */
  function CollectedColumns(currencies: seq<CurrencyInfo>, q: Fmt.QuantizeConfig): (cols: Columns)
    ensures cols.Aligned() && |cols.names| == |currencies|
  {
    var entryOf := EntryMaker(q);
    Unzip(seq(|currencies|, i requires 0 <= i < |currencies| => entryOf(currencies[i])))
  }

  /** The widths of all columns, failing as `max` does when there is no currency. */
  function ColumnLens(cols: Columns, lenDecimal: (Dec, bool) -> nat): Result<Lens, CliError>
    requires cols.Aligned()
  {
    var price :- MaxLens(cols.price, lenDecimal);
    // The other lists are as long as the prices, so their maxima exist as well.
    var tvl := MaxLens(cols.tvl, lenDecimal).value;
    var volume24h := MaxLens(cols.volume24h, lenDecimal).value;
    var volume7d := MaxOf(seq(|cols.volume7d|, i requires 0 <= i < |cols.volume7d| => lenDecimal(cols.volume7d[i], false)));
    Success(Lens(NameMaxLen(cols.names), price.0, price.1, tvl.0, tvl.1, volume24h.0, volume24h.1, volume7d))
  }

  /** One body line: the right-justified name and the four value cells, and the widths they report. */
  function Line(e: Entry, t: Titles, m: Lens, colors: Colors): (seq<Piece>, Widths) {
    var nameS := Piece(Some(colors.name), Text.RJust(e.name, m.name) + " ");
    var (ps, pw) := FormatValue(t.price, m.price, e.price.0, Some(m.priceChange), Some(e.price.1), colors);
    var (ts, tw) := FormatValue(t.tvl, m.tvl, e.tvl.0, Some(m.tvlChange), Some(e.tvl.1), colors);
    var (vs, vw) := FormatValue(t.volume24h, m.volume24h, e.volume24h.0, Some(m.volume24hChange), Some(e.volume24h.1), colors);
    var (ws, ww) := FormatValue(t.volume7d, m.volume7d, e.volume7d, None, None, colors);
    ([Piece(None, " "), nameS] + ps + ts + vs + ws + [Piece(None, "\n")], Widths(pw, tw, vw, ww))
  }

  /** The line builder with the titles, widths and colours fixed. */
  function LineFormatter(t: Titles, m: Lens, colors: Colors): (f: Entry -> (seq<Piece>, Widths))
    ensures forall e :: f(e) == Line(e, t, m, colors)
  {
    e => Line(e, t, m, colors)
  }

  /** The lines of the first `k` entries, one after the other. */
  function Body(es: seq<Entry>, k: nat, lineOf: Entry -> (seq<Piece>, Widths)): seq<Piece>
    requires k <= |es|
  {
    if k == 0 then [] else Body(es, k - 1, lineOf) + lineOf(es[k - 1]).0
  }

  /** The header line, each value title right-justified in the width given for its column. */
  function Header(t: Titles, m: Lens, w: Widths, colors: Colors): Piece {
    Piece(Some(colors.table),
      " " + Text.RJust(NameTitle, m.name) + " │" + Text.RJust(t.price, w.price) + " │" + Text.RJust(t.tvl, w.tvl)
      + " │" + Text.RJust(t.volume24h, w.volume24h) + " │" + Text.RJust(t.volume7d, w.volume7d) + "\n")
  }

  /**
   * What `print_currencies_info` writes: the header and then a line per currency in the order
   * given. The header's column widths are those the last line reported.
   */
  function CurrenciesOutput(currencies: seq<CurrencyInfo>, sort: SortOption, order: SortOrder,
                            q: Fmt.QuantizeConfig, lenDecimal: (Dec, bool) -> nat, colors: Colors): Result<seq<Piece>, CliError> {
    var cols := CollectedColumns(currencies, q);
    var t := TitlesOf(SortIndicators(|currencies|, sort, order));
    var m :- ColumnLens(cols, lenDecimal);
    var es := Zip(cols);
    var last := Line(es[|es| - 1], t, m, colors).1;
    Success([Header(t, m, last, colors)] + Body(es, |es|, LineFormatter(t, m, colors)))
  }

  /** Printing fails exactly when there is no currency, at `max` over the empty value lists. */
  lemma CurrenciesOutputFailsOnEmpty(currencies: seq<CurrencyInfo>, sort: SortOption, order: SortOrder,
                                     q: Fmt.QuantizeConfig, lenDecimal: (Dec, bool) -> nat, colors: Colors)
    ensures var r := CurrenciesOutput(currencies, sort, order, q, lenDecimal, colors);
      && (r.Failure? <==> currencies == [])
      && (r.Failure? ==> r.error == EmptyMax)
  {
  }

  /**
   * Every title fits the width its cell reports: the width is at least the title's length minus
   * one, so the header's right-justification never needs more than one extra character.
   */
  lemma LineWidthsFitTitles(e: Entry, t: Titles, m: Lens, colors: Colors)
    ensures var w := Line(e, t, m, colors).1;
      && w.price >= |t.price| - 1 && w.tvl >= |t.tvl| - 1
      && w.volume24h >= |t.volume24h| - 1 && w.volume7d >= |t.volume7d| - 1
  {
    FormatValueMeets(t.price, m.price, e.price.0, Some(m.priceChange), Some(e.price.1), colors);
    FormatValueMeets(t.tvl, m.tvl, e.tvl.0, Some(m.tvlChange), Some(e.tvl.1), colors);
    FormatValueMeets(t.volume24h, m.volume24h, e.volume24h.0, Some(m.volume24hChange), Some(e.volume24h.1), colors);
    FormatValueMeets(t.volume7d, m.volume7d, e.volume7d, None, None, colors);
  }

  /**
   * `print_currencies_info(currencies_info, sort, sort_order)` up to `click.echo`: the first loop
   * fills the five lists, the second accumulates the lines and keeps overwriting the reported
   * widths, and the header is put in front.
   */
  method PrintCurrenciesInfo(currencies: seq<CurrencyInfo>, sort: SortOption, order: SortOrder,
                             q: Fmt.QuantizeConfig, lenDecimal: (Dec, bool) -> nat, colors: Colors)
    returns (r: Result<seq<Piece>, CliError>)
    ensures r == CurrenciesOutput(currencies, sort, order, q, lenDecimal, colors)
  {
    var cols := Collect(currencies, EntryMaker(q));
    var t := TitlesOf(SortIndicators(|currencies|, sort, order));
    var m :- ColumnLens(cols, lenDecimal);
    var s, last := Lines(Zip(cols), LineFormatter(t, m, colors));
    r := Success([Header(t, m, last, colors)] + s);
  }

  /** The first loop: for each currency, `entryOf` gives what is appended to each of the five lists. */
  method Collect(currencies: seq<CurrencyInfo>, entryOf: CurrencyInfo -> Entry) returns (cols: Columns)
    ensures cols == Unzip(seq(|currencies|, i requires 0 <= i < |currencies| => entryOf(currencies[i])))
  {
    var names: seq<string> := [];
    var price: seq<(Dec, Dec)> := [];
    var tvl: seq<(Dec, Dec)> := [];
    var volume24h: seq<(Dec, Dec)> := [];
    var volume7d: seq<Dec> := [];
    ghost var spec := Unzip(seq(|currencies|, i requires 0 <= i < |currencies| => entryOf(currencies[i])));
    var i := 0;
    while i < |currencies|
      invariant 0 <= i <= |currencies|
      invariant names == spec.names[..i] && price == spec.price[..i] && tvl == spec.tvl[..i]
      invariant volume24h == spec.volume24h[..i] && volume7d == spec.volume7d[..i]
    {
      var e := entryOf(currencies[i]);
      names := names + [e.name];
      price := price + [e.price];
      tvl := tvl + [e.tvl];
      volume24h := volume24h + [e.volume24h];
      volume7d := volume7d + [e.volume7d];
      i := i + 1;
    }
    assert names == spec.names && price == spec.price && tvl == spec.tvl;
    assert volume24h == spec.volume24h && volume7d == spec.volume7d;
    cols := Columns(names, price, tvl, volume24h, volume7d);
  }

  /** The second loop over the zipped entries: the lines in order, and the widths the last one reported. */
  method Lines(es: seq<Entry>, lineOf: Entry -> (seq<Piece>, Widths)) returns (s: seq<Piece>, last: Widths)
    requires |es| > 0
    ensures s == Body(es, |es|, lineOf)
    ensures last == lineOf(es[|es| - 1]).1
  {
    s := [];
    last := Widths(0, 0, 0, 0);
    var i := 0;
    while i < |es|
      invariant 0 <= i <= |es|
      invariant s == Body(es, i, lineOf)
      invariant i > 0 ==> last == lineOf(es[i - 1]).1
    {
      var (pieces, widths) := lineOf(es[i]);
      s := s + pieces;
      last := widths;
      i := i + 1;
    }
  }

  /**
   * The names `show` asks for: the default list when neither names nor `-l` are given, the named
   * list when only `-l` is given, the names when only they are given; names together with `-l`,
   * and a list that is not configured, are rejected.
   */
  function ShowNames(names: seq<string>, currencyList: Option<string>, lists: map<string, seq<string>>,
                     defaultList: string): Result<seq<string>, CliError> {
    var listGiven := currencyList.Some? && currencyList.value != "";
    if names == [] && !listGiven then
      if defaultList in lists then Success(lists[defaultList]) else Failure(KeyError(defaultList))
    else if names == [] then
      if currencyList.value in lists then Success(lists[currencyList.value])
      else Failure(UsageError("'" + currencyList.value + "' currency list does not exist in the config."))
    else if listGiven then
      Failure(UsageError("'-l/--list' option is not allowed if NAMES were set."))
    else
      Success(names)
  }

  /** The four cases of `show`'s choice, each in both directions where it is a choice. */
  lemma ShowNamesMeets(names: seq<string>, currencyList: Option<string>, lists: map<string, seq<string>>,
                       defaultList: string)
    ensures var listGiven := currencyList.Some? && currencyList.value != "";
      var r := ShowNames(names, currencyList, lists, defaultList);
      && (names != [] && listGiven ==> r == Failure(UsageError("'-l/--list' option is not allowed if NAMES were set.")))
      && (names != [] && !listGiven ==> r == Success(names))
      && (names == [] && !listGiven ==>
            (r.Success? <==> defaultList in lists) && (r.Success? ==> r.value == lists[defaultList]))
      && (names == [] && listGiven ==>
            (r.Success? <==> currencyList.value in lists) && (r.Success? ==> r.value == lists[currencyList.value]))
      && (r.Failure? && r.error.UsageError? ==> listGiven)
  {
  }
}
