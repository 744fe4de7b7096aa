/** The CSV helpers of monica_run_lib.py that the producers use to read their
    input tables: `read_csv` (a table keyed by one column or by a tuple of
    columns), `read_sim_setups` (a table keyed by its integer run-id) and
    `get_value`. A file is given as the rows the csv reader yields, each a
    sequence of cell texts. */
module RunLib {
  import opened Common

  // ---------------------------------------------------------------------------
  // Cells

  /** A cell as the readers store it: its text, a boolean for a
      case-insensitive "true" or "false", or the number a key conversion
      `int(...)` produced. */
  datatype Cell = Text(s: string) | Flag(b: bool) | Number(n: int)

  function LowerChar(c: char): char
  {
    if 'A' <= c <= 'Z' then (c as int + 32) as char else c
  }

  /** `s.lower()` for ASCII letters */
  function Lower(s: string): (r: string)
    ensures |r| == |s|
  {
    seq(|s|, i requires 0 <= i < |s| => LowerChar(s[i]))
  }

  /** `value.lower() in ["true", "false"]` turns the cell into a bool. */
  function ReadCell(text: string): Cell
  {
    if Lower(text) == "true" then Flag(true)
    else if Lower(text) == "false" then Flag(false)
    else Text(text)
  }

  /** A cell is a boolean exactly when its text is "true" or "false" in any
      letter case, and then it is true exactly for "true"; every other cell
      keeps its text unchanged. */
  lemma {:induction false} ReadCellCases(text: string)
    ensures ReadCell(text).Flag? <==> Lower(text) == "true" || Lower(text) == "false"
    ensures ReadCell(text).Flag? ==> (ReadCell(text).b <==> Lower(text) == "true")
    ensures !ReadCell(text).Flag? ==> ReadCell(text) == Text(text)
    ensures ReadCell("TRUE") == Flag(true) && ReadCell("False") == Flag(false)
  {
    assert Lower("TRUE") == "true";
    assert Lower("False") == "false";
  }

  predicate IsDigit(c: char)
  {
    '0' <= c <= '9'
  }

  predicate AllDigits(s: string)
  {
    forall i :: 0 <= i < |s| ==> IsDigit(s[i])
  }

  function DigitValue(c: char): nat
    requires IsDigit(c)
  {
    c as int - 48
  }

  /** The value of a string of decimal digits. */
  function DigitsValue(s: string): nat
    requires AllDigits(s)
  {
    if s == [] then 0 else DigitsValue(s[..|s| - 1]) * 10 + DigitValue(s[|s| - 1])
  }

  /** `int(s)` for an optionally signed string of decimal digits; any other
      text raises ValueError. */
  function ParseInt(s: string): Result<int>
  {
    if |s| > 1 && (s[0] == '-' || s[0] == '+') && AllDigits(s[1..]) then
      var v: int := DigitsValue(s[1..]);
      Ok(if s[0] == '-' then -v else v)
    else if |s| > 0 && AllDigits(s) then Ok(DigitsValue(s))
    else Err(BadValue)
  }

  /** `str(n)` for an int */
  function IntToString(n: int): string
  {
    if n < 0 then "-" + NatToString(-n) else NatToString(n)
  }

  lemma {:induction false} DigitsOfNat(n: nat)
    ensures AllDigits(NatToString(n)) && DigitsValue(NatToString(n)) == n
  {
    if n >= 10 {
      DigitsOfNat(n / 10);
      var s := NatToString(n);
      assert s[..|s| - 1] == NatToString(n / 10);
    }
  }

  lemma {:induction false} ParseNatText(n: nat)
    ensures ParseInt(NatToString(n)) == Ok(n)
  {
    var s := NatToString(n);
    DigitsOfNat(n);
    assert IsDigit(s[0]);
  }

  lemma {:induction false} ParseSigned(t: string)
    requires |t| >= 1 && AllDigits(t)
    ensures ParseInt("-" + t) == Ok(-(DigitsValue(t) as int))
  {
    var s := "-" + t;
    assert s[0] == '-' && s[1..] == t;
  }

  lemma {:induction false} ParseMinusText(s: string, m: nat)
    requires m > 0 && s == "-" + NatToString(m)
    ensures ParseInt(s) == Ok(-(m as int))
  {
    DigitsOfNat(m);
    ParseSigned(NatToString(m));
  }

  lemma {:induction false} ParseNegative(n: int)
    requires n < 0
    ensures ParseInt(IntToString(n)) == Ok(n)
  {
    ParseMinusText(IntToString(n), -n);
  }

  lemma {:induction false} ParseNonNegative(n: int)
    requires n >= 0
    ensures ParseInt(IntToString(n)) == Ok(n)
  {
    ParseNatText(n);
  }

  /** `int(str(n)) == n` */
  lemma {:induction false} ParseIntRoundTrip(n: int)
    ensures ParseInt(IntToString(n)) == Ok(n)
  {
    if n < 0 {
      ParseNegative(n);
    } else {
      ParseNonNegative(n);
    }
  }

  /** `int(value)`: an int is kept, a bool is 1 or 0, a text is parsed. */
  function CellToInt(c: Cell): Result<int>
  {
    match c
    case Number(n) => Ok(n)
    case Flag(b) => Ok(if b then 1 else 0)
    case Text(s) => ParseInt(s)
  }

  /** `str(value)` and `f"{value}"` */
  function CellText(c: Cell): string
  {
    match c
    case Text(s) => s
    case Flag(b) => if b then "True" else "False"
    case Number(n) => IntToString(n)
  }

  /** `float(value)`; the parsing of a decimal text is `parseFloat`, whose
      None stands for ValueError. */
  function CellToFloat(c: Cell, parseFloat: string -> Option<real>): Result<real>
  {
    match c
    case Number(n) => Ok(n as real)
    case Flag(b) => Ok(if b then 1.0 else 0.0)
    case Text(s) => if parseFloat(s).Some? then Ok(parseFloat(s).value) else Err(BadValue)
  }

  /** A key column's type: `str` or `int`. */
  datatype KeyType = StrType | IntType

  function Convert(kt: KeyType, c: Cell): (r: Result<Cell>)
    ensures r.Ok? ==> (kt == StrType ==> r.value.Text?) && (kt == IntType ==> r.value.Number?)
  {
    match kt
    case StrType => Ok(Text(CellText(c)))
    case IntType => var n :- CellToInt(c); Ok(Number(n))
  }

  /** Converting twice gives what converting once gave, so the key built
      from the already converted columns equals those columns. */
  lemma {:induction false} ConvertTwice(kt: KeyType, c: Cell)
    requires Convert(kt, c).Ok?
    ensures Convert(kt, Convert(kt, c).value) == Convert(kt, c)
  {
  }

  // ---------------------------------------------------------------------------
  // read_csv (monica_run_lib.py:25-67)

  /** The `key` argument: one column name, or a tuple of column names. */
  datatype KeySpec = OneKey(name: string) | KeyTuple(names: seq<string>)

  /** A row's key: a single value, or a tuple of values. */
  datatype Key = Single(c: Cell) | Composite(cs: seq<Cell>)

  type Row = map<string, Cell>

  /** `key_types.get(i, key_types[0])`; an empty `key_type` raises KeyError. */
  function KeyTypeAt(keyTypes: seq<KeyType>, i: nat): Result<KeyType>
  {
    if keyTypes == [] then Err(MissingKey) else Ok(if i < |keyTypes| then keyTypes[i] else keyTypes[0])
  }

  /** The index of the first occurrence of `x` in `s`. */
  function FirstIndex(s: seq<string>, x: string): (i: nat)
    requires x in s
    ensures i < |s| && s[i] == x && forall j :: 0 <= j < i ==> s[j] != x
  {
    if s[0] == x then 0 else 1 + FirstIndex(s[1..], x)
  }

  /** One cell of a data row: the boolean conversion, then the conversion of
      a key column by its key type. */
  function CellValue(col: string, text: string, key: KeySpec, keyTypes: seq<KeyType>): Result<Cell>
  {
    match key
    case KeyTuple(names) =>
      if col in names then var kt :- KeyTypeAt(keyTypes, FirstIndex(names, col)); Convert(kt, ReadCell(text))
      else Ok(ReadCell(text))
    case OneKey(name) =>
      if col == name then var kt :- KeyTypeAt(keyTypes, 0); Convert(kt, ReadCell(text))
      else Ok(ReadCell(text))
  }

  /** The `data` dict of a row over its first n header columns; a row
      shorter than the header raises IndexError. */
  function RowData(header: seq<string>, row: seq<string>, n: nat, key: KeySpec, keyTypes: seq<KeyType>): (r: Result<Row>)
    requires n <= |header|
    ensures r.Ok? ==> n <= |row| && forall j :: 0 <= j < n ==> header[j] in r.value
  {
    if n == 0 then Ok(map[])
    else
      var data :- RowData(header, row, n - 1, key, keyTypes);
      var text :- At(row, n - 1);
      var v :- CellValue(header[n - 1], text, key, keyTypes);
      Ok(data[header[n - 1] := v])
  }

  /** The cells of a composite key, from its first n columns. */
  function KeyCells(data: Row, names: seq<string>, n: nat, keyTypes: seq<KeyType>): (r: Result<seq<Cell>>)
    requires n <= |names|
    ensures r.Ok? ==> |r.value| == n
  {
    if n == 0 then Ok([])
    else
      var cs :- KeyCells(data, names, n - 1, keyTypes);
      var kt :- KeyTypeAt(keyTypes, n - 1);
      var c :- Lookup(data, names[n - 1]);
      var v :- Convert(kt, c);
      Ok(cs + [v])
  }

  /** `key_vals`: the row's key. */
  function KeyOf(data: Row, key: KeySpec, keyTypes: seq<KeyType>): Result<Key>
  {
    match key
    case OneKey(name) =>
      var kt :- KeyTypeAt(keyTypes, 0);
      var c :- Lookup(data, name);
      var v :- Convert(kt, c);
      Ok(Single(v))
    case KeyTuple(names) =>
      var cs :- KeyCells(data, names, |names|, keyTypes);
      Ok(Composite(cs))
  }

  /** One data row: its key and its data. */
  function KeyedRow(header: seq<string>, row: seq<string>, key: KeySpec, keyTypes: seq<KeyType>): Result<(Key, Row)>
  {
    var data :- RowData(header, row, |header|, key, keyTypes);
    var k :- KeyOf(data, key, keyTypes);
    Ok((k, data))
  }

  /** The data-row loop: a later row with the same key replaces the earlier
      one's data and keeps its position. */
  function KeyedRows(header: seq<string>, rows: seq<seq<string>>, key: KeySpec, keyTypes: seq<KeyType>): (r: Result<Dict<Key, Row>>)
    ensures r.Ok? ==> r.value.Valid() && |r.value.keys| <= |rows|
  {
    if rows == [] then Ok(EmptyDict())
    else
      var d :- KeyedRows(header, rows[..|rows| - 1], key, keyTypes);
      var kr :- KeyedRow(header, rows[|rows| - 1], key, keyTypes);
      Ok(Put(d, kr.0, kr.1))
  }

  /** The index of the header line: lines before `header_row_line` are skipped. */
  function HeaderIndex(headerRowLine: int): nat
  {
    if headerRowLine >= 1 then headerRowLine - 1 else 0
  }

  /** The index of the first data line: lines between the header and
      `data_row_start` are skipped. */
  function DataStart(headerRowLine: int, dataRowStart: int): (i: nat)
    ensures i > HeaderIndex(headerRowLine)
  {
    var afterHeader := if headerRowLine >= 1 then headerRowLine else 1;
    if dataRowStart - 1 > afterHeader then dataRowStart - 1 else afterHeader
  }

  /** `read_csv` on the rows of a file; running out of lines before the data
      starts raises StopIteration. */
  function ReadCsv(lines: seq<seq<string>>, key: KeySpec, keyTypes: seq<KeyType>, headerRowLine: int, dataRowStart: int)
    : Result<Dict<Key, Row>>
  {
    if |lines| < DataStart(headerRowLine, dataRowStart) then Err(Exhausted)
    else KeyedRows(lines[HeaderIndex(headerRowLine)], lines[DataStart(headerRowLine, dataRowStart)..], key, keyTypes)
  }

  /** Reading stops with StopIteration exactly when the file ends before the
      first data line. */
  lemma {:induction false} ReadCsvExhausted(lines: seq<seq<string>>, key: KeySpec, keyTypes: seq<KeyType>, headerRowLine: int, dataRowStart: int)
    ensures ReadCsv(lines, key, keyTypes, headerRowLine, dataRowStart) == Err(Exhausted) <==>
      |lines| < DataStart(headerRowLine, dataRowStart)
  {
    if |lines| >= DataStart(headerRowLine, dataRowStart) {
      KeyedRowsNeverExhausted(lines[HeaderIndex(headerRowLine)], lines[DataStart(headerRowLine, dataRowStart)..], key, keyTypes);
    }
  }

  lemma {:induction false} KeyedRowsNeverExhausted(header: seq<string>, rows: seq<seq<string>>, key: KeySpec, keyTypes: seq<KeyType>)
    ensures KeyedRows(header, rows, key, keyTypes) != Err(Exhausted)
  {
    if rows != [] {
      KeyedRowsNeverExhausted(header, rows[..|rows| - 1], key, keyTypes);
      KeyedRowNeverExhausted(header, rows[|rows| - 1], key, keyTypes);
    }
  }

  lemma {:induction false} KeyedRowNeverExhausted(header: seq<string>, row: seq<string>, key: KeySpec, keyTypes: seq<KeyType>)
    ensures KeyedRow(header, row, key, keyTypes) != Err(Exhausted)
  {
    RowDataNeverExhausted(header, row, |header|, key, keyTypes);
    if RowData(header, row, |header|, key, keyTypes).Ok? && key.KeyTuple? {
      KeyCellsNeverExhausted(RowData(header, row, |header|, key, keyTypes).value, key.names, |key.names|, keyTypes);
    }
  }

  lemma {:induction false} RowDataNeverExhausted(header: seq<string>, row: seq<string>, n: nat, key: KeySpec, keyTypes: seq<KeyType>)
    requires n <= |header|
    ensures RowData(header, row, n, key, keyTypes) != Err(Exhausted)
  {
    if n > 0 {
      RowDataNeverExhausted(header, row, n - 1, key, keyTypes);
    }
  }

  lemma {:induction false} KeyCellsNeverExhausted(data: Row, names: seq<string>, n: nat, keyTypes: seq<KeyType>)
    requires n <= |names|
    ensures KeyCells(data, names, n, keyTypes) != Err(Exhausted)
  {
    if n > 0 {
      KeyCellsNeverExhausted(data, names, n - 1, keyTypes);
    }
  }

  /** A data row shorter than the header makes `read_csv` fail. */
  lemma {:induction false} ShortRowFails(header: seq<string>, rows: seq<seq<string>>, key: KeySpec, keyTypes: seq<KeyType>, j: nat)
    requires j < |rows| && |rows[j]| < |header|
    ensures KeyedRows(header, rows, key, keyTypes).Err?
  {
    if KeyedRows(header, rows, key, keyTypes).Ok? {
      KeyedRowsAllOk(header, rows, key, keyTypes, j);
    }
  }

  /** When the loop completes, every row was converted. */
  lemma {:induction false} KeyedRowsAllOk(header: seq<string>, rows: seq<seq<string>>, key: KeySpec, keyTypes: seq<KeyType>, j: nat)
    requires j < |rows| && KeyedRows(header, rows, key, keyTypes).Ok?
    ensures KeyedRow(header, rows[j], key, keyTypes).Ok?
  {
    if j < |rows| - 1 {
      KeyedRowsAllOk(header, rows[..|rows| - 1], key, keyTypes, j);
    }
  }

  predicate DistinctNames(names: seq<string>)
  {
    forall i, j :: 0 <= i < j < |names| ==> names[i] != names[j]
  }

  /** The key of a row is made of the row's own (converted) key columns,
      when no column appears twice in the key. */
  lemma {:induction false} KeyMatchesColumns(header: seq<string>, row: seq<string>, key: KeySpec, keyTypes: seq<KeyType>)
    requires KeyedRow(header, row, key, keyTypes).Ok?
    requires key.KeyTuple? ==> DistinctNames(key.names)
    ensures var (k, data) := KeyedRow(header, row, key, keyTypes).value;
      match key
      case OneKey(name) => name in data && k == Single(data[name])
      case KeyTuple(names) => k.Composite? && |k.cs| == |names| && forall i :: 0 <= i < |names| ==> names[i] in data && k.cs[i] == data[names[i]]
  {
    var data := RowData(header, row, |header|, key, keyTypes).value;
    match key
    case OneKey(name) =>
      ConvertedColumn(header, row, |header|, key, keyTypes, name);
    case KeyTuple(names) =>
      KeyCellsAreColumns(header, row, data, names, |names|, keyTypes);
  }

  lemma {:induction false} KeyCellsAreColumns(header: seq<string>, row: seq<string>, data: Row, names: seq<string>, n: nat,
                                              keyTypes: seq<KeyType>)
    requires n <= |names| && DistinctNames(names)
    requires RowData(header, row, |header|, KeyTuple(names), keyTypes) == Ok(data)
    requires KeyCells(data, names, n, keyTypes).Ok?
    ensures forall i :: 0 <= i < n ==> names[i] in data && KeyCells(data, names, n, keyTypes).value[i] == data[names[i]]
  {
    if n > 0 {
      KeyCellsAreColumns(header, row, data, names, n - 1, keyTypes);
      ConvertedColumn(header, row, |header|, KeyTuple(names), keyTypes, names[n - 1]);
      assert FirstIndex(names, names[n - 1]) == n - 1;
    }
  }

  /** A key column in the data already holds a converted value that a
      second conversion, by the type of the column's first position in the
      key, leaves as it is. */
  lemma {:induction false} ConvertedColumn(header: seq<string>, row: seq<string>, n: nat, key: KeySpec, keyTypes: seq<KeyType>, col: string)
    requires n <= |header| && RowData(header, row, n, key, keyTypes).Ok?
    requires col in RowData(header, row, n, key, keyTypes).value
    requires key.OneKey? ==> col == key.name
    requires key.KeyTuple? ==> col in key.names
    ensures var v := RowData(header, row, n, key, keyTypes).value[col];
      && keyTypes != []
      && (key.OneKey? ==> Convert(keyTypes[0], v) == Ok(v))
      && (key.KeyTuple? ==> Convert(KeyTypeAt(keyTypes, FirstIndex(key.names, col)).value, v) == Ok(v))
  {
    if header[n - 1] != col {
      ConvertedColumn(header, row, n - 1, key, keyTypes, col);
    }
  }

  /** Every key of the table is the key of a data row, and its data is that
      of the last row with that key. */
  lemma {:induction false} LastRowWins(header: seq<string>, rows: seq<seq<string>>, key: KeySpec, keyTypes: seq<KeyType>, k: Key)
    requires KeyedRows(header, rows, key, keyTypes).Ok?
    ensures var d := KeyedRows(header, rows, key, keyTypes).value;
      && (k in d.entries <==> LastWithKey(header, rows, key, keyTypes, k) >= 0)
      && (k in d.entries ==> KeyedRow(header, rows[LastWithKey(header, rows, key, keyTypes, k)], key, keyTypes) == Ok((k, d.entries[k])))
  {
    if rows != [] {
      LastRowWins(header, rows[..|rows| - 1], key, keyTypes, k);
    }
  }

  /** The index of the last row whose key is `k`, or -1. */
  function LastWithKey(header: seq<string>, rows: seq<seq<string>>, key: KeySpec, keyTypes: seq<KeyType>, k: Key): (i: int)
    ensures -1 <= i < |rows|
    ensures i >= 0 ==> KeyedRow(header, rows[i], key, keyTypes).Ok? && KeyedRow(header, rows[i], key, keyTypes).value.0 == k
    ensures forall j :: i < j < |rows| ==> !(KeyedRow(header, rows[j], key, keyTypes).Ok? && KeyedRow(header, rows[j], key, keyTypes).value.0 == k)
  {
    if rows == [] then -1
    else
      var kr := KeyedRow(header, rows[|rows| - 1], key, keyTypes);
      if kr.Ok? && kr.value.0 == k then |rows| - 1 else LastWithKey(header, rows[..|rows| - 1], key, keyTypes, k)
  }

  /** With the key types (str, int), every key is a (text, number) pair. */
  lemma {:induction false} TextNumberKeys(header: seq<string>, rows: seq<seq<string>>, names: seq<string>, k: Key)
    requires |names| == 2
    requires KeyedRows(header, rows, KeyTuple(names), [StrType, IntType]).Ok?
    requires k in KeyedRows(header, rows, KeyTuple(names), [StrType, IntType]).value.entries
    ensures k.Composite? && |k.cs| == 2 && k.cs[0].Text? && k.cs[1].Number?
  {
    var i := LastWithKey(header, rows, KeyTuple(names), [StrType, IntType], k);
    LastRowWins(header, rows, KeyTuple(names), [StrType, IntType], k);
    var data := RowData(header, rows[i], |header|, KeyTuple(names), [StrType, IntType]).value;
    var cs := KeyCells(data, names, 2, [StrType, IntType]).value;
    assert KeyCells(data, names, 1, [StrType, IntType]).value == cs[..1];
  }

  /** The lines skipped before and after the header (monica_run_lib.py:38-46):
      the header line and the index of the first data line. */
  method SkipToData(lines: seq<seq<string>>, headerRowLine: int, dataRowStart: int) returns (r: Result<(seq<string>, nat)>)
    ensures |lines| < DataStart(headerRowLine, dataRowStart) ==> r == Err(Exhausted)
    ensures |lines| >= DataStart(headerRowLine, dataRowStart) ==>
      r == Ok((lines[HeaderIndex(headerRowLine)], DataStart(headerRowLine, dataRowStart)))
  {
    var pos := 0;
    var line := 1;
    while line < headerRowLine
      invariant pos == line - 1 && 1 <= line <= if headerRowLine >= 1 then headerRowLine else 1
    {
      if pos >= |lines| {
        return Err(Exhausted);
      }
      pos := pos + 1;
      line := line + 1;
    }
    if pos >= |lines| {
      return Err(Exhausted);
    }
    var header := lines[pos];
    pos := pos + 1;
    line := line + 1;
    while line < dataRowStart
      invariant pos == line - 1 && pos <= DataStart(headerRowLine, dataRowStart) && pos <= |lines|
      invariant pos == HeaderIndex(headerRowLine) + 1 || pos <= dataRowStart - 1
    {
      if pos >= |lines| {
        return Err(Exhausted);
      }
      pos := pos + 1;
      line := line + 1;
    }
    r := Ok((header, pos));
  }

  /** read_csv (monica_run_lib.py:25-67) on the rows of a file. */
  method ReadCsvLines(lines: seq<seq<string>>, key: KeySpec, keyTypes: seq<KeyType>, headerRowLine: int, dataRowStart: int)
    returns (r: Result<Dict<Key, Row>>)
    ensures r == ReadCsv(lines, key, keyTypes, headerRowLine, dataRowStart)
  {
    var start := SkipToData(lines, headerRowLine, dataRowStart);
    if start.Err? {
      return Err(start.error);
    }
    r := ReadRows(start.value.0, lines[start.value.1..], key, keyTypes);
  }

  /** The data-row loop of read_csv (monica_run_lib.py:48-66). */
  method ReadRows(header: seq<string>, rows: seq<seq<string>>, key: KeySpec, keyTypes: seq<KeyType>) returns (r: Result<Dict<Key, Row>>)
    ensures r == KeyedRows(header, rows, key, keyTypes)
  {
    var d: Dict<Key, Row> := EmptyDict();
    var j := 0;
    while j < |rows|
      invariant j <= |rows|
      invariant KeyedRows(header, rows[..j], key, keyTypes) == Ok(d)
    {
      var next := AddRow(header, rows, key, keyTypes, j, d);
      if next.Err? {
        KeyedRowsFailureSticks(header, rows, key, keyTypes, j + 1, next.error);
        return next;
      }
      d := next.value;
      j := j + 1;
    }
    assert rows[..j] == rows;
    r := Ok(d);
  }

  /** One iteration of the row loop: read row j and store it under its key. */
  method AddRow(header: seq<string>, rows: seq<seq<string>>, key: KeySpec, keyTypes: seq<KeyType>, j: nat,
                d: Dict<Key, Row>) returns (r: Result<Dict<Key, Row>>)
    requires j < |rows| && KeyedRows(header, rows[..j], key, keyTypes) == Ok(d)
    ensures r == KeyedRows(header, rows[..j + 1], key, keyTypes)
  {
    var kr := ReadRow(header, rows[j], key, keyTypes);
    KeyedRowsStep(header, rows, key, keyTypes, j);
    if kr.Err? {
      return Err(kr.error);
    }
    r := Ok(Put(d, kr.value.0, kr.value.1));
  }

  lemma {:induction false} KeyedRowsStep(header: seq<string>, rows: seq<seq<string>>, key: KeySpec, keyTypes: seq<KeyType>, j: nat)
    requires j < |rows| && KeyedRows(header, rows[..j], key, keyTypes).Ok?
    ensures var kr := KeyedRow(header, rows[j], key, keyTypes);
      var d := KeyedRows(header, rows[..j], key, keyTypes).value;
      KeyedRows(header, rows[..j + 1], key, keyTypes) == if kr.Ok? then Ok(Put(d, kr.value.0, kr.value.1)) else Err(kr.error)
  {
    assert rows[..j + 1][..j] == rows[..j];
  }

  lemma {:induction false} KeyedRowsFailureSticks(header: seq<string>, rows: seq<seq<string>>, key: KeySpec, keyTypes: seq<KeyType>,
                                                  k: nat, e: Error)
    requires k <= |rows| && KeyedRows(header, rows[..k], key, keyTypes) == Err(e)
    ensures KeyedRows(header, rows, key, keyTypes) == Err(e)
    decreases |rows| - k
  {
    if k < |rows| {
      assert rows[..k + 1][..k] == rows[..k];
      KeyedRowsFailureSticks(header, rows, key, keyTypes, k + 1, e);
    } else {
      assert rows[..k] == rows;
    }
  }

  /** The body of the row loop: the column loop, then the key. */
  method ReadRow(header: seq<string>, row: seq<string>, key: KeySpec, keyTypes: seq<KeyType>) returns (r: Result<(Key, Row)>)
    ensures r == KeyedRow(header, row, key, keyTypes)
  {
    var data := ReadRowData(header, row, key, keyTypes);
    if data.Err? {
      return Err(data.error);
    }
    var k := KeyOf(data.value, key, keyTypes);
    if k.Err? {
      return Err(k.error);
    }
    r := Ok((k.value, data.value));
  }

  /** The column loop: each cell of the row stored under its column's name. */
  method ReadRowData(header: seq<string>, row: seq<string>, key: KeySpec, keyTypes: seq<KeyType>) returns (r: Result<Row>)
    ensures r == RowData(header, row, |header|, key, keyTypes)
  {
    var data: Row := map[];
    var i: nat := 0;
    while i < |header|
      invariant i <= |header|
      invariant RowData(header, row, i, key, keyTypes) == Ok(data)
    {
      var next := ReadColumn(header, row, i, key, keyTypes, data);
      match next
      case Err(e) =>
        RowDataFailureSticks(header, row, key, keyTypes, i + 1, e);
        return Err(e);
      case Ok(d) =>
        data, i := d, i + 1;
    }
    r := Ok(data);
  }

  /** One iteration of the column loop: cell i of the row, converted and
      stored under column i's name. */
  method ReadColumn(header: seq<string>, row: seq<string>, i: nat, key: KeySpec, keyTypes: seq<KeyType>, data: Row)
    returns (r: Result<Row>)
    requires i < |header| && RowData(header, row, i, key, keyTypes) == Ok(data)
    ensures r == RowData(header, row, i + 1, key, keyTypes)
  {
    if i >= |row| {
      return Err(IndexOutOfRange);
    }
    var value := CellValue(header[i], row[i], key, keyTypes);
    if value.Err? {
      return Err(value.error);
    }
    r := Ok(data[header[i] := value.value]);
  }

  lemma {:induction false} RowDataFailureSticks(header: seq<string>, row: seq<string>, key: KeySpec, keyTypes: seq<KeyType>,
                                                n: nat, e: Error)
    requires n <= |header| && RowData(header, row, n, key, keyTypes) == Err(e)
    ensures RowData(header, row, |header|, key, keyTypes) == Err(e)
    decreases |header| - n
  {
    if n < |header| {
      RowDataFailureSticks(header, row, key, keyTypes, n + 1, e);
    }
  }

  // ---------------------------------------------------------------------------
  // read_sim_setups (monica_run_lib.py:70-92)

  /** A setup row's data over its first n header columns: the first column
      is converted by `int()`. */
  function SetupData(header: seq<string>, row: seq<string>, n: nat): (r: Result<Row>)
    requires n <= |header|
    ensures r.Ok? ==> n <= |row| && forall j :: 0 <= j < n ==> header[j] in r.value
  {
    if n == 0 then Ok(map[])
    else
      var data :- SetupData(header, row, n - 1);
      var text :- At(row, n - 1);
      var v := ReadCell(text);
      var v' :- if n - 1 == 0 then (var i :- CellToInt(v); Ok(Number(i))) else Ok(v);
      Ok(data[header[n - 1] := v'])
  }

  /** The row loop: empty rows are skipped, every other row is stored under
      `int(data["run-id"])`, a later row replacing an earlier one. */
  function SetupRows(header: seq<string>, rows: seq<seq<string>>): (r: Result<Dict<int, Row>>)
    ensures r.Ok? ==> r.value.Valid()
  {
    if rows == [] then Ok(EmptyDict())
    else
      var d :- SetupRows(header, rows[..|rows| - 1]);
      SetupRow(header, d, rows[|rows| - 1])
  }

  /** One row of the loop: skipped when empty, else stored under its run-id. */
  function SetupRow(header: seq<string>, d: Dict<int, Row>, row: seq<string>): (r: Result<Dict<int, Row>>)
    ensures d.Valid() && r.Ok? ==> r.value.Valid()
  {
    if row == [] then Ok(d)
    else
      var data :- SetupData(header, row, |header|);
      var c :- Lookup(data, "run-id");
      var id :- CellToInt(c);
      Ok(Put(d, id, data))
  }

  /** `read_sim_setups`: the first row is the header. */
  function ReadSimSetups(lines: seq<seq<string>>): Result<Dict<int, Row>>
  {
    if lines == [] then Err(Exhausted) else SetupRows(lines[0], lines[1..])
  }

  function NonEmptyRows(rows: seq<seq<string>>): (r: seq<seq<string>>)
    ensures forall i :: 0 <= i < |r| ==> r[i] != []
  {
    if rows == [] then []
    else NonEmptyRows(rows[..|rows| - 1]) + (if rows[|rows| - 1] == [] then [] else [rows[|rows| - 1]])
  }

  /** Empty rows change nothing: the table is that of the non-empty rows. */
  lemma {:induction false} EmptyRowsSkipped(header: seq<string>, rows: seq<seq<string>>)
    ensures SetupRows(header, rows) == SetupRows(header, NonEmptyRows(rows))
  {
    if rows != [] {
      var init := rows[..|rows| - 1];
      EmptyRowsSkipped(header, init);
      var ne := NonEmptyRows(init);
      if rows[|rows| - 1] != [] {
        assert NonEmptyRows(rows) == ne + [rows[|rows| - 1]];
        assert (ne + [rows[|rows| - 1]])[..|ne|] == ne;
      } else {
        assert NonEmptyRows(rows) == ne;
      }
    }
  }

  /** The first column's name appears nowhere else in the header. */
  predicate FirstColumnUnique(header: seq<string>)
  {
    |header| > 0 && forall j :: 0 < j < |header| ==> header[j] != header[0]
  }

  /** Every stored setup has an int in its first column (when no other
      column has the first one's name) and is stored under its own run-id. */
  lemma {:induction false} SetupsKeyedByRunId(header: seq<string>, rows: seq<seq<string>>, id: int)
    requires FirstColumnUnique(header)
    requires SetupRows(header, rows).Ok? && id in SetupRows(header, rows).value.entries
    ensures var data := SetupRows(header, rows).value.entries[id];
      && header[0] in data && data[header[0]].Number?
      && "run-id" in data && CellToInt(data["run-id"]) == Ok(id)
  {
    var init := rows[..|rows| - 1];
    var row := rows[|rows| - 1];
    if row != [] {
      var data := SetupData(header, row, |header|).value;
      if CellToInt(data["run-id"]) != Ok(id) {
        SetupsKeyedByRunId(header, init, id);
      } else {
        SetupFirstColumn(header, row, |header|);
      }
    } else {
      SetupsKeyedByRunId(header, init, id);
    }
  }

  lemma {:induction false} SetupFirstColumn(header: seq<string>, row: seq<string>, n: nat)
    requires 0 < n <= |header| && SetupData(header, row, n).Ok? && FirstColumnUnique(header)
    ensures SetupData(header, row, n).value[header[0]].Number?
  {
    if n > 1 {
      SetupFirstColumn(header, row, n - 1);
    }
  }

  /** The reading loop of read_sim_setups (monica_run_lib.py:78-92). */
  method ReadSimSetupLines(lines: seq<seq<string>>) returns (r: Result<Dict<int, Row>>)
    ensures r == ReadSimSetups(lines)
  {
    if lines == [] {
      return Err(Exhausted);
    }
    var header := lines[0];
    var rows := lines[1..];
    var setups: Dict<int, Row> := EmptyDict();
    var j := 0;
    while j < |rows|
      invariant j <= |rows|
      invariant SetupRows(header, rows[..j]) == Ok(setups)
    {
      SetupRowsStep(header, rows, j);
      var next := AddSetupRow(header, setups, rows[j]);
      if next.Err? {
        SetupRowsFailureSticks(header, rows, j + 1, next.error);
        return Err(next.error);
      }
      setups := next.value;
      j := j + 1;
    }
    assert rows[..j] == rows;
    r := Ok(setups);
  }

  /** The body of the row loop (monica_run_lib.py:80-91). */
  method AddSetupRow(header: seq<string>, setups: Dict<int, Row>, row: seq<string>) returns (r: Result<Dict<int, Row>>)
    ensures r == SetupRow(header, setups, row)
  {
    if row == [] {
      return Ok(setups);
    }
    var data := SetupData(header, row, |header|);
    if data.Err? {
      return Err(data.error);
    }
    if "run-id" !in data.value {
      return Err(MissingKey);
    }
    var id := CellToInt(data.value["run-id"]);
    if id.Err? {
      return Err(id.error);
    }
    r := Ok(Put(setups, id.value, data.value));
  }

  lemma {:induction false} SetupRowsStep(header: seq<string>, rows: seq<seq<string>>, j: nat)
    requires j < |rows| && SetupRows(header, rows[..j]).Ok?
    ensures SetupRows(header, rows[..j + 1]) == SetupRow(header, SetupRows(header, rows[..j]).value, rows[j])
  {
    assert rows[..j + 1][..j] == rows[..j];
  }

  lemma {:induction false} SetupRowsFailureSticks(header: seq<string>, rows: seq<seq<string>>, k: nat, e: Error)
    requires k <= |rows| && SetupRows(header, rows[..k]) == Err(e)
    ensures SetupRows(header, rows) == Err(e)
    decreases |rows| - k
  {
    if k < |rows| {
      assert rows[..k + 1][..k] == rows[..k];
      SetupRowsFailureSticks(header, rows, k + 1, e);
    } else {
      assert rows[..k] == rows;
    }
  }

  // ---------------------------------------------------------------------------
  // get_value (monica_run_lib.py:119-120)

  /** A MONICA parameter: a plain value, or a list such as [value, unit]. */
  datatype Param = Num(x: real) | Str(s: string) | List(items: seq<Param>)

  /** The first element of a list (IndexError when empty), else the value. */
  function GetValue(p: Param): Result<Param>
  {
    match p
    case List(items) => At(items, 0)
    case _ => Ok(p)
  }

  /** A [value, unit] pair yields its value; a plain value yields itself,
      so reading a value back out of the pair it was wrapped in is lossless. */
  lemma {:induction false} GetValueOfPair(v: Param, unit: string)
    ensures GetValue(List([v, Str(unit)])) == Ok(v)
    ensures !v.List? ==> GetValue(v) == Ok(v) && GetValue(GetValue(List([v, Str(unit)])).value) == Ok(v)
    ensures GetValue(List([])) == Err(IndexOutOfRange)
  {
  }
}
