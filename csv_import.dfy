/**
 * The statement importer: splitting a CSV line with its quote handling,
 * reading money amounts, turning an exported transaction history into rows,
 * the payment fingerprint used for de-duplication, and the comparison of an
 * import with what the database already holds.
 */
module CsvImport {
  import opened Money
  import opened Wrappers
  import Text

  // ---------------------------------------------------------------- parseCSVLine

  /**
   * The fields of s, splitting at commas outside quotes. Every `"` is dropped
   * and flips quoting, so a doubled quote yields no literal quote.
   */
  function CsvSplit(s: string, inQuotes: bool): (r: seq<string>)
    ensures |r| >= 1
  {
    if s == [] then [""]
    else if s[0] == '"' then CsvSplit(s[1..], !inQuotes)
    else if s[0] == ',' && !inQuotes then [""] + CsvSplit(s[1..], inQuotes)
    else
      var rest := CsvSplit(s[1..], inQuotes);
      [[s[0]] + rest[0]] + rest[1..]
  }

  function CsvFields(line: string): seq<string>
  {
    CsvSplit(line, false)
  }

  /** Number of commas of s outside quotes, starting with the given quote state. */
  function CommasOutside(s: string, inQuotes: bool): nat
  {
    if s == [] then 0
    else if s[0] == '"' then CommasOutside(s[1..], !inQuotes)
    else (if s[0] == ',' && !inQuotes then 1 else 0) + CommasOutside(s[1..], inQuotes)
  }

  /** One field per unquoted comma, plus one; no field keeps a quote. */
  lemma {:induction false} CsvSplitFields(s: string, inQuotes: bool)
    ensures |CsvSplit(s, inQuotes)| == CommasOutside(s, inQuotes) + 1
    ensures forall k | 0 <= k < |CsvSplit(s, inQuotes)| :: '"' !in CsvSplit(s, inQuotes)[k]
  {
    if s != [] {
      if s[0] == '"' {
        CsvSplitFields(s[1..], !inQuotes);
      } else {
        CsvSplitFields(s[1..], inQuotes);
      }
    }
  }

  /** Without quotes the line is split at every comma, exactly like `split(',')`. */
  lemma {:induction false} CsvSplitNoQuotes(s: string, inQuotes: bool)
    requires '"' !in s && !inQuotes
    ensures CsvSplit(s, inQuotes) == Text.Split(s, ',')
  {
    if s != [] {
      CsvSplitNoQuotes(s[1..], inQuotes);
    }
  }

  /** For a line without quotes, joining the fields with commas gives back the line. */
  lemma CsvFieldsJoin(line: string)
    requires '"' !in line
    ensures Text.Join(CsvFields(line), ',') == line
  {
    CsvSplitNoQuotes(line, false);
    Text.JoinSplit(line, ',');
  }

  /** Not the quoting of RFC 4180: a doubled quote inside a quoted field yields no quote. */
  lemma DoubledQuoteDropped()
    ensures CsvFields("\"a\"\"b\",c") == ["ab", "c"]
  {
    var s := "\"a\"\"b\",c";
    assert s[1..] == "a\"\"b\",c" && s[2..] == "\"\"b\",c" && s[3..] == "\"b\",c";
    assert s[4..] == "b\",c" && s[5..] == "\",c" && s[6..] == ",c" && s[7..] == "c" && s[8..] == "";
    assert CsvSplit(s[8..], false) == [""];
    assert ['c'] + "" == "c" && ['b'] + "" == "b" && ['a'] + "b" == "ab";
    assert CsvSplit(s[7..], false) == ["c"];
    assert CsvSplit(s[6..], false) == ["", "c"];
    assert CsvSplit(s[5..], true) == ["", "c"];
    assert CsvSplit(s[4..], true) == ["b", "c"];
    assert CsvSplit(s[3..], false) == ["b", "c"];
    assert CsvSplit(s[2..], true) == ["b", "c"];
    assert CsvSplit(s[1..], true) == ["ab", "c"];
  }

  /** The field being read, continued by the fields of the rest of the line. */
  function Continue(current: string, rest: seq<string>): seq<string>
    requires |rest| >= 1
  {
    [current + rest[0]] + rest[1..]
  }

  lemma ContinueEmpty(rest: seq<string>)
    requires |rest| >= 1
    ensures Continue("", rest) == rest
  {
    assert "" + rest[0] == rest[0];
  }

  lemma ContinueComma(current: string, rest: seq<string>)
    requires |rest| >= 1
    ensures Continue(current, [""] + rest) == [current] + Continue("", rest)
  {
    assert current + "" == current;
    assert ([""] + rest)[1..] == rest;
    ContinueEmpty(rest);
  }

  lemma ContinueChar(current: string, ch: char, rest: seq<string>)
    requires |rest| >= 1
    ensures Continue(current, [[ch] + rest[0]] + rest[1..]) == Continue(current + [ch], rest)
  {
    assert current + ([ch] + rest[0]) == current + [ch] + rest[0];
  }

  /** One character of the line: a quote flips quoting, an unquoted comma ends a field, anything else is kept. */
  lemma CsvSplitStep(s: string, inQuotes: bool)
    requires s != []
    ensures s[0] == '"' ==> CsvSplit(s, inQuotes) == CsvSplit(s[1..], !inQuotes)
    ensures s[0] == ',' && !inQuotes ==> CsvSplit(s, inQuotes) == [""] + CsvSplit(s[1..], inQuotes)
    ensures s[0] != '"' && !(s[0] == ',' && !inQuotes) ==>
      CsvSplit(s, inQuotes) == [[s[0]] + CsvSplit(s[1..], inQuotes)[0]] + CsvSplit(s[1..], inQuotes)[1..]
  {
  }

  /** `parseCSVLine`: a character loop with the field being read and the quote state. */
  method ParseCsvLine(line: string) returns (result: seq<string>)
    ensures result == CsvFields(line)
  {
    result := [];
    var current := "";
    var inQuotes := false;
    ContinueEmpty(CsvFields(line));
    assert line[0..] == line;
    for i := 0 to |line|
      invariant result + Continue(current, CsvSplit(line[i..], inQuotes)) == CsvFields(line)
    {
      var ch := line[i];
      assert line[i..][1..] == line[i + 1..];
      CsvSplitStep(line[i..], inQuotes);
      if ch == '"' {
        inQuotes := !inQuotes;
        continue;
      }
      var rest := CsvSplit(line[i + 1..], inQuotes);
      if ch == ',' && !inQuotes {
        ContinueComma(current, rest);
        assert result + ([current] + Continue("", rest)) == (result + [current]) + Continue("", rest);
        result := result + [current];
        current := "";
        continue;
      }
      ContinueChar(current, ch, rest);
      current := current + [ch];
    }
    assert line[|line|..] == [];
    assert Continue(current, [""]) == [current] by {
      assert current + "" == current;
    }
    result := result + [current];
  }

  // ---------------------------------------------------------------- parseMoney

  /** What is left of an amount once trimmed and stripped of `$`, `"` and `,`. */
  function MoneyText(s: string): (r: string)
    ensures '$' !in r && '"' !in r && ',' !in r
  {
    Text.RemoveAll(Text.Trim(s), {'$', '"', ','})
  }

  /**
   * `parseMoney`: an empty field is 0; a field with nothing left once cleaned,
   * or reading `Unavailable`, is `null` (None); otherwise the number the
   * cleaned text reads as, 0 when it is not a number. The text-to-number
   * reading is the parameter `parseFloat` (None for NaN).
   */
  function ParseMoney(s: string, parseFloat: string -> Option<real>): Option<real>
  {
    if s == "" then Some(0.0)
    else
      var t := MoneyText(s);
      if t == "" || t == "Unavailable" then None
      else Some(match parseFloat(t) case Some(x) => x case None => 0.0)
  }

  /**
   * An empty field reads as 0; a non-empty field of blanks only, or of
   * currency signs, quotes and commas only, or the word `Unavailable`, reads
   * as `null`; a readable number is passed through and an unreadable one is 0.
   */
  lemma ParseMoneySpec(s: string, parseFloat: string -> Option<real>)
    ensures s == "" ==> ParseMoney(s, parseFloat) == Some(0.0)
    ensures s != "" && (forall k | 0 <= k < |s| :: Text.IsSpace(s[k])) ==> ParseMoney(s, parseFloat) == None
    ensures s != "" && (forall k | 0 <= k < |s| :: s[k] in {'$', '"', ','}) ==> ParseMoney(s, parseFloat) == None
    ensures s != "" && MoneyText(s) != "" && MoneyText(s) != "Unavailable" && parseFloat(MoneyText(s)) == None
            ==> ParseMoney(s, parseFloat) == Some(0.0)
    ensures s != "" && MoneyText(s) == "Unavailable" ==> ParseMoney(s, parseFloat) == None
    ensures s != "" && MoneyText(s) != "" && MoneyText(s) != "Unavailable" && parseFloat(MoneyText(s)).Some?
            ==> ParseMoney(s, parseFloat) == parseFloat(MoneyText(s))
  {
    Text.TrimEmptyIffBlank(s);
    if s != "" && forall k | 0 <= k < |s| :: s[k] in {'$', '"', ','} {
      Text.TrimSlice(s);
      var t := Text.Trim(s);
      forall k | 0 <= k < |t| ensures t[k] in {'$', '"', ','} {
        assert t[k] == s[Text.TrimOffset(s) + k];
      }
      RemoveAllOf(t, {'$', '"', ','});
    }
    if s != "" && forall k | 0 <= k < |s| :: Text.IsSpace(s[k]) {
      assert Text.Trim(s) == "";
      assert Text.RemoveAll("", {'$', '"', ','}) == "";
    }
  }

  lemma {:induction false} RemoveAllOf(s: string, cs: set<char>)
    requires forall k | 0 <= k < |s| :: s[k] in cs
    ensures Text.RemoveAll(s, cs) == ""
  {
    if s != [] {
      RemoveAllOf(s[1..], cs);
    }
  }

  // ---------------------------------------------------------------- parseAidvantageCSV

  /** One transaction of the export. */
  datatype CsvRow = CsvRow(
    date: string, loanId: string, loanName: string, loanType: string, description: string,
    principal: real, interest: real, fees: real, total: real, balance: real, rawTotal: Option<real>)

  /** `Math.abs` of a parsed amount, where `null` counts as 0. */
  function Magnitude(x: Option<real>): (r: real)
    ensures r >= 0.0
    ensures x.Some? ==> r == x.value || r == -x.value
  {
    match x
    case None => 0.0
    case Some(v) => Abs(v)
  }

  /** The loan type named in a loan's name; Subsidized when it names neither of the others. */
  function LoanType(loanName: string): string
  {
    if Text.Contains(loanName, "Grad PLUS") then "Grad PLUS"
    else if Text.Contains(loanName, "Unsubsidized") then "Unsubsidized"
    else "Subsidized"
  }

  /** `MM/DD/YYYY` becomes `YYYY-MM-DD`; a date without exactly three `/`-parts is kept. */
  function IsoDate(date: string): string
  {
    var dp := Text.Split(date, '/');
    if |dp| == 3 then dp[2] + "-" + Text.PadStart2(dp[0]) + "-" + Text.PadStart2(dp[1]) else date
  }

  /** A month/day/year date is rewritten year first, month and day padded to two digits. */
  lemma IsoDateRewrites(m: string, d: string, y: string)
    requires '/' !in m && '/' !in d && '/' !in y
    ensures IsoDate(m + "/" + d + "/" + y) == y + "-" + Text.PadStart2(m) + "-" + Text.PadStart2(d)
  {
    var parts := [m, d, y];
    assert Text.Join(parts[2..], '/') == y;
    assert Text.Join(parts[1..], '/') == d + "/" + y;
    assert Text.Join(parts, '/') == m + "/" + d + "/" + y;
    Text.SplitJoin(parts, '/');
  }

  /** A date with other than two slashes is left as it is. */
  lemma IsoDateKeeps(date: string)
    requires Text.Occurrences(date, '/') != 2
    ensures IsoDate(date) == date
  {
    Text.SplitFields(date, '/');
  }

  /**
   * The row of one line's fields: none for fewer than eight fields or an
   * empty date or loan name. Amounts are made non-negative and a `null`
   * balance becomes 0; the signed total is kept as `rawTotal`.
   */
  function RowFromFields(parts: seq<string>, parseFloat: string -> Option<real>): Option<CsvRow>
  {
    if |parts| < 8 then None
    else
      var date := Text.Trim(parts[0]);
      var loanName := Text.Trim(parts[1]);
      if date == "" || loanName == "" then None
      else
        var total := ParseMoney(parts[6], parseFloat);
        var balance := ParseMoney(parts[7], parseFloat);
        Some(CsvRow(
          IsoDate(date), Text.Split(loanName, ' ')[0], loanName, LoanType(loanName), Text.Trim(parts[2]),
          Magnitude(ParseMoney(parts[3], parseFloat)), Magnitude(ParseMoney(parts[4], parseFloat)),
          Magnitude(ParseMoney(parts[5], parseFloat)), Magnitude(total),
          match balance case Some(b) => b case None => 0.0,
          total))
  }

  function RowOf(line: string, parseFloat: string -> Option<real>): Option<CsvRow>
  {
    RowFromFields(CsvFields(line), parseFloat)
  }

  /**
   * A line gives a row exactly when it has at least eight fields with a
   * non-empty date and loan name. The loan id is the name up to its first
   * space, the type is Grad PLUS or Unsubsidized when the name says so and
   * Subsidized otherwise, and every amount is non-negative.
   */
  lemma RowOfSpec(line: string, parseFloat: string -> Option<real>)
    ensures var f := CsvFields(line);
      RowOf(line, parseFloat).Some? <==> |f| >= 8 && Text.Trim(f[0]) != "" && Text.Trim(f[1]) != ""
    ensures RowOf(line, parseFloat).Some? ==>
      var r := RowOf(line, parseFloat).value;
      && r.loanName != ""
      && Text.StartsWith(r.loanName, r.loanId) && ' ' !in r.loanId
      && (|r.loanId| < |r.loanName| ==> r.loanName[|r.loanId|] == ' ')
      && (r.loanType == "Grad PLUS" <==> Text.Contains(r.loanName, "Grad PLUS"))
      && (r.loanType == "Unsubsidized" <==> !Text.Contains(r.loanName, "Grad PLUS") && Text.Contains(r.loanName, "Unsubsidized"))
      && (r.loanType == "Subsidized" <==> !Text.Contains(r.loanName, "Grad PLUS") && !Text.Contains(r.loanName, "Unsubsidized"))
      && r.principal >= 0.0 && r.interest >= 0.0 && r.fees >= 0.0 && r.total >= 0.0
  {
    if RowOf(line, parseFloat).Some? {
      var r := RowOf(line, parseFloat).value;
      Text.SplitFirst(r.loanName, ' ');
    }
  }

  /** The lines that are not blank, in order. */
  function NonBlank(lines: seq<string>): (r: seq<string>)
    ensures |r| <= |lines|
    ensures forall l | l in r :: l in lines && Text.Trim(l) != ""
  {
    if lines == [] then []
    else
      var l := lines[|lines| - 1];
      NonBlank(lines[..|lines| - 1]) + (if Text.Trim(l) != "" then [l] else [])
  }

  /** The export's lines: doctype removed, trimmed, split at newlines, blank lines dropped. */
  function Lines(text: string): seq<string>
  {
    NonBlank(Text.Split(Text.Trim(Text.StripDoctype(text)), '\n'))
  }

  /** The rows of the given lines, in order, skipping lines that give none. */
  /** The values of the items that f maps to Some, in order. */
  function Collect<A, B>(items: seq<A>, f: A -> Option<B>): seq<B>
  {
    if items == [] then []
    else
      var v := f(items[|items| - 1]);
      Collect(items[..|items| - 1], f) + (if v.Some? then [v.value] else [])
  }

  /** The rows of the data lines, in line order; lines that give no row are skipped. */
  function RowsOf(lines: seq<string>, parseFloat: string -> Option<real>): seq<CsvRow>
  {
    Collect(lines, (line: string) => RowOf(line, parseFloat))
  }

  /** `parseAidvantageCSV`: nothing without a header and one more line; the header is skipped. */
  function AidvantageRows(text: string, parseFloat: string -> Option<real>): seq<CsvRow>
  {
    var lines := Lines(text);
    if |lines| < 2 then [] else RowsOf(lines[1..], parseFloat)
  }

  /** Every row comes from one of the lines, every line that gives a row contributes it, and there are no more rows than lines. */
  lemma RowsOfSpec(lines: seq<string>, parseFloat: string -> Option<real>)
    ensures |RowsOf(lines, parseFloat)| <= |lines|
    ensures forall r | r in RowsOf(lines, parseFloat) :: exists i | 0 <= i < |lines| :: RowOf(lines[i], parseFloat) == Some(r)
    ensures forall i | 0 <= i < |lines| && RowOf(lines[i], parseFloat).Some? :: RowOf(lines[i], parseFloat).value in RowsOf(lines, parseFloat)
  {
    var f := (line: string) => RowOf(line, parseFloat);
    CollectLength(lines, f);
    CollectSound(lines, f);
    CollectComplete(lines, f);
    forall r | r in RowsOf(lines, parseFloat) ensures exists i | 0 <= i < |lines| :: RowOf(lines[i], parseFloat) == Some(r) {
      var i :| 0 <= i < |lines| && f(lines[i]) == Some(r);
      assert RowOf(lines[i], parseFloat) == Some(r);
    }
  }

  lemma {:induction false} CollectLength<A, B>(items: seq<A>, f: A -> Option<B>)
    ensures |Collect(items, f)| <= |items|
  {
    if items != [] {
      CollectLength(items[..|items| - 1], f);
    }
  }

  /** Every collected value comes from some item. */
  lemma {:induction false} CollectSound<A, B>(items: seq<A>, f: A -> Option<B>)
    ensures forall v | v in Collect(items, f) :: exists i | 0 <= i < |items| :: f(items[i]) == Some(v)
  {
    if items != [] {
      var init := items[..|items| - 1];
      CollectSound(init, f);
      forall v | v in Collect(items, f) ensures exists i | 0 <= i < |items| :: f(items[i]) == Some(v) {
        if v in Collect(init, f) {
          var i :| 0 <= i < |init| && f(init[i]) == Some(v);
          assert items[i] == init[i];
        } else {
          assert f(items[|items| - 1]) == Some(v);
        }
      }
    }
  }

  /** Every item's value is collected. */
  lemma {:induction false} CollectComplete<A, B>(items: seq<A>, f: A -> Option<B>)
    ensures forall i | 0 <= i < |items| && f(items[i]).Some? :: f(items[i]).value in Collect(items, f)
  {
    if items != [] {
      var init := items[..|items| - 1];
      CollectComplete(init, f);
      forall i | 0 <= i < |items| && f(items[i]).Some? ensures f(items[i]).value in Collect(items, f) {
        if i < |init| {
          assert items[i] == init[i];
        }
      }
    }
  }

  /**
   * Fewer than two non-blank lines give no rows; otherwise there is at most
   * one row per line after the header, and each comes from such a line.
   */
  lemma AidvantageRowsSpec(text: string, parseFloat: string -> Option<real>)
    ensures |Lines(text)| < 2 ==> AidvantageRows(text, parseFloat) == []
    ensures |AidvantageRows(text, parseFloat)| <= |Lines(text)| - 1 || AidvantageRows(text, parseFloat) == []
    ensures forall r | r in AidvantageRows(text, parseFloat) ::
      exists i | 1 <= i < |Lines(text)| :: RowOf(Lines(text)[i], parseFloat) == Some(r)
  {
    var lines := Lines(text);
    if |lines| >= 2 {
      RowsOfSpec(lines[1..], parseFloat);
      forall r | r in AidvantageRows(text, parseFloat) ensures exists i | 1 <= i < |lines| :: RowOf(lines[i], parseFloat) == Some(r) {
        var i :| 0 <= i < |lines[1..]| && RowOf(lines[1..][i], parseFloat) == Some(r);
        assert lines[i + 1] == lines[1..][i];
      }
    }
  }

  lemma RowsOfSnoc(lines: seq<string>, line: string, parseFloat: string -> Option<real>)
    ensures var row := RowOf(line, parseFloat);
      RowsOf(lines + [line], parseFloat) == RowsOf(lines, parseFloat) + (if row.Some? then [row.value] else [])
  {
    var f := (l: string) => RowOf(l, parseFloat);
    assert (lines + [line])[..|lines|] == lines;
    assert f(line) == RowOf(line, parseFloat);
  }

  /** The loop of `parseAidvantageCSV` over the lines after the header, pushing each row. */
  method CollectRows(lines: seq<string>, parseFloat: string -> Option<real>) returns (rows: seq<CsvRow>)
    ensures rows == RowsOf(lines, parseFloat)
  {
    rows := [];
    for i := 0 to |lines|
      invariant rows == RowsOf(lines[..i], parseFloat)
    {
      assert lines[..i + 1] == lines[..i] + [lines[i]];
      RowsOfSnoc(lines[..i], lines[i], parseFloat);
      var parts := ParseCsvLine(lines[i]);
      var row := RowFromFields(parts, parseFloat);
      if row.Some? {
        rows := rows + [row.value];
      }
    }
    assert lines[..|lines|] == lines;
  }

  /** `parseAidvantageCSV`. */
  method ParseAidvantageCsv(text: string, parseFloat: string -> Option<real>) returns (rows: seq<CsvRow>)
    ensures rows == AidvantageRows(text, parseFloat)
  {
    var lines := Lines(text);
    if |lines| < 2 {
      return [];
    }
    rows := CollectRows(lines[1..], parseFloat);
  }

  // ---------------------------------------------------------------- paymentKey

  /** `paymentKey`: the de-duplication fingerprint `date|loanId|amount` with the amount to two decimals. */
  function PaymentKey(date: string, loanId: string, amount: real): string
  {
    date + "|" + loanId + "|" + Text.Fixed2(amount)
  }

  lemma Fixed2NoBar(x: real)
    ensures '|' !in Text.Fixed2(x)
  {
    var cents := (Abs(x) * 100.0 + 0.5).Floor;
    var whole := Text.NatText(cents / 100);
    assert '|' !in whole by {
      forall i | 0 <= i < |whole| ensures whole[i] != '|' {
      }
    }
  }

  /**
   * For a date and loan id without `|`, the fingerprint splits back into its
   * three parts, so two fingerprints agree exactly when the dates, the loan
   * ids and the amounts to two decimals agree.
   */
  lemma PaymentKeyParts(date: string, loanId: string, amount: real)
    requires '|' !in date && '|' !in loanId
    ensures Text.Split(PaymentKey(date, loanId, amount), '|') == [date, loanId, Text.Fixed2(amount)]
  {
    var parts := [date, loanId, Text.Fixed2(amount)];
    Fixed2NoBar(amount);
    assert Text.Join(parts[2..], '|') == Text.Fixed2(amount);
    assert Text.Join(parts[1..], '|') == loanId + "|" + Text.Fixed2(amount);
    assert Text.Join(parts, '|') == PaymentKey(date, loanId, amount);
    Text.SplitJoin(parts, '|');
  }

  lemma PaymentKeyInjective(d1: string, l1: string, a1: real, d2: string, l2: string, a2: real)
    requires '|' !in d1 && '|' !in l1 && '|' !in d2 && '|' !in l2
    ensures PaymentKey(d1, l1, a1) == PaymentKey(d2, l2, a2) <==> d1 == d2 && l1 == l2 && Text.Fixed2(a1) == Text.Fixed2(a2)
  {
    PaymentKeyParts(d1, l1, a1);
    PaymentKeyParts(d2, l2, a2);
  }

  // ---------------------------------------------------------------- analysis: balances

  /** A loan as the database holds it, and a recorded payment. */
  datatype DbLoan = DbLoan(loanId: string, currentBalance: real)
  datatype DbPayment = DbPayment(paymentDate: string, loanId: string, amount: real)

  /** The balance and type taken from the import for each loan, and the loans in the order first seen. */
  datatype Latest = Latest(balances: map<string, real>, types: map<string, string>, order: seq<string>)

  predicate Distinct(ids: seq<string>)
  {
    forall i, j | 0 <= i < j < |ids| :: ids[i] != ids[j]
  }

  /**
   * Each loan's balance and type from its first row (the export lists the
   * most recent transaction first). This is the intended behaviour; see
   * `FirstBalancesAsWritten` for what the screen's falsy test does.
   */
  function FirstBalances(rows: seq<CsvRow>): (r: Latest)
    ensures forall i | 0 <= i < |r.order| :: r.order[i] in r.balances && r.order[i] in r.types
    ensures forall id | id in r.balances :: id in r.order
    ensures Distinct(r.order)
  {
    if rows == [] then Latest(map[], map[], [])
    else
      var p := FirstBalances(rows[..|rows| - 1]);
      var row := rows[|rows| - 1];
      if row.loanId in p.balances then p
      else Latest(p.balances[row.loanId := row.balance], p.types[row.loanId := row.loanType], p.order + [row.loanId])
  }

  /**
   * The loans are exactly those of the rows, and each one's balance and type
   * are those of its first row.
   */
  lemma {:induction false} FirstBalancesSpec(rows: seq<CsvRow>, i: nat)
    requires i < |rows| && forall j | 0 <= j < i :: rows[j].loanId != rows[i].loanId
    ensures rows[i].loanId in FirstBalances(rows).balances
    ensures FirstBalances(rows).balances[rows[i].loanId] == rows[i].balance
    ensures FirstBalances(rows).types[rows[i].loanId] == rows[i].loanType
  {
    if i < |rows| - 1 {
      FirstBalancesSpec(rows[..|rows| - 1], i);
    } else {
      FirstBalancesAbsent(rows[..|rows| - 1], rows[i].loanId);
    }
  }

  lemma {:induction false} FirstBalancesAbsent(rows: seq<CsvRow>, id: string)
    requires forall j | 0 <= j < |rows| :: rows[j].loanId != id
    ensures id !in FirstBalances(rows).balances
  {
    if rows != [] {
      FirstBalancesAbsent(rows[..|rows| - 1], id);
    }
  }

  lemma {:induction false} FirstBalancesDomain(rows: seq<CsvRow>, id: string)
    ensures id in FirstBalances(rows).balances <==> exists j | 0 <= j < |rows| :: rows[j].loanId == id
  {
    if rows != [] {
      var init := rows[..|rows| - 1];
      FirstBalancesDomain(init, id);
      if exists j | 0 <= j < |init| :: init[j].loanId == id {
        var j :| 0 <= j < |init| && init[j].loanId == id;
        assert rows[j] == init[j];
      }
      if exists j | 0 <= j < |rows| :: rows[j].loanId == id {
        var j :| 0 <= j < |rows| && rows[j].loanId == id;
        if j < |init| {
          assert init[j] == rows[j];
        }
      }
    }
  }

  /**
   * The screen's own loop: a row sets its loan's balance when there is none
   * yet or the one there is 0 (a falsy test), so a later, older row replaces
   * a balance of 0. A key set again keeps its place in the order.
   */
  function FirstBalancesAsWritten(rows: seq<CsvRow>): (r: Latest)
    ensures forall i | 0 <= i < |r.order| :: r.order[i] in r.balances && r.order[i] in r.types
    ensures forall id | id in r.balances :: id in r.order
  {
    if rows == [] then Latest(map[], map[], [])
    else
      var p := FirstBalancesAsWritten(rows[..|rows| - 1]);
      var row := rows[|rows| - 1];
      if row.loanId in p.balances && p.balances[row.loanId] != 0.0 then p
      else
        Latest(p.balances[row.loanId := row.balance], p.types[row.loanId := row.loanType],
               if row.loanId in p.balances then p.order else p.order + [row.loanId])
  }

  function SampleRow(loanId: string, balance: real): CsvRow
  {
    CsvRow("2024-01-01", loanId, loanId, "Subsidized", "PAYMENT", 0.0, 0.0, 0.0, 0.0, balance, None)
  }

  /**
   * A loan whose latest row shows it paid off (balance 0) followed by an
   * older row with balance 500: as written the older 500 wins, so the loan
   * is neither counted as paid off nor compared with the right balance.
   */
  lemma PaidOffBalanceOverwritten()
    ensures var rows := [SampleRow("1-01", 0.0), SampleRow("1-01", 500.0)];
      && FirstBalancesAsWritten(rows).balances["1-01"] == 500.0
      && FirstBalances(rows).balances["1-01"] == 0.0
  {
    var rows := [SampleRow("1-01", 0.0), SampleRow("1-01", 500.0)];
    assert rows[..1] == [SampleRow("1-01", 0.0)];
    assert rows[..1][..0] == [];
  }

  /** The `currentBalances` loop, with the first-row test. */
  method FillCurrentBalances(rows: seq<CsvRow>) returns (latest: Latest)
    ensures latest == FirstBalances(rows)
  {
    var balances: map<string, real> := map[];
    var types: map<string, string> := map[];
    var order: seq<string> := [];
    for i := 0 to |rows|
      invariant Latest(balances, types, order) == FirstBalances(rows[..i])
    {
      assert rows[..i + 1][..i] == rows[..i];
      var row := rows[i];
      if row.loanId !in balances {
        balances := balances[row.loanId := row.balance];
        types := types[row.loanId := row.loanType];
        order := order + [row.loanId];
      }
    }
    assert rows[..|rows|] == rows;
    latest := Latest(balances, types, order);
  }

  /** `dbBalances`: each database loan's balance; a later record for the same id replaces an earlier one. */
  function DbBalances(loans: seq<DbLoan>): map<string, real>
  {
    if loans == [] then map[]
    else
      var l := loans[|loans| - 1];
      DbBalances(loans[..|loans| - 1])[l.loanId := l.currentBalance]
  }

  /** The database's balance for a loan is that of its last record, and only loans with a record have one. */
  lemma {:induction false} DbBalancesSpec(loans: seq<DbLoan>, id: string)
    ensures id in DbBalances(loans) <==> exists j | 0 <= j < |loans| :: loans[j].loanId == id
    ensures forall j | 0 <= j < |loans| && loans[j].loanId == id && (forall k | j < k < |loans| :: loans[k].loanId != id) ::
      DbBalances(loans)[id] == loans[j].currentBalance
  {
    if loans != [] {
      var init := loans[..|loans| - 1];
      DbBalancesSpec(init, id);
      forall j | 0 <= j < |init| ensures init[j] == loans[j] {
      }
    }
  }

  method DbBalanceMap(loans: seq<DbLoan>) returns (m: map<string, real>)
    ensures m == DbBalances(loans)
  {
    m := map[];
    for i := 0 to |loans|
      invariant m == DbBalances(loans[..i])
    {
      assert loans[..i + 1][..i] == loans[..i];
      m := m[loans[i].loanId := loans[i].currentBalance];
    }
    assert loans[..|loans|] == loans;
  }

  // ---------------------------------------------------------------- analysis: changes

  datatype BalanceChange = BalanceChange(loanId: string, loanType: string, oldBalance: Option<real>, newBalance: real, isNew: bool)

  /** A loan is reported when the database lacks it or its balance differs by more than half a cent. */
  predicate Differs(id: string, balances: map<string, real>, db: map<string, real>)
    requires id in balances
  {
    id !in db || Abs(db[id] - balances[id]) > 0.005
  }

  function ChangeFor(id: string, latest: Latest, db: map<string, real>): BalanceChange
    requires id in latest.balances && id in latest.types
  {
    if id !in db then BalanceChange(id, latest.types[id], None, latest.balances[id], true)
    else BalanceChange(id, latest.types[id], Some(db[id]), latest.balances[id], false)
  }

  /** `balanceChanges`: the differing loans, in the order first seen. */
  function BalanceChanges(ids: seq<string>, latest: Latest, db: map<string, real>): seq<BalanceChange>
    requires forall i | 0 <= i < |ids| :: ids[i] in latest.balances && ids[i] in latest.types
  {
    if ids == [] then []
    else
      var id := ids[|ids| - 1];
      BalanceChanges(ids[..|ids| - 1], latest, db) + (if Differs(id, latest.balances, db) then [ChangeFor(id, latest, db)] else [])
  }

  /**
   * A change is reported for a loan exactly when the database lacks it or
   * disagrees by more than half a cent; it is new exactly when the database
   * lacks it, carries the database balance otherwise, and the import's
   * balance and type.
   */
  lemma {:induction false} BalanceChangesSpec(ids: seq<string>, latest: Latest, db: map<string, real>)
    requires forall i | 0 <= i < |ids| :: ids[i] in latest.balances && ids[i] in latest.types
    ensures forall c | c in BalanceChanges(ids, latest, db) ::
      && c.loanId in ids && c.loanId in latest.balances
      && Differs(c.loanId, latest.balances, db)
      && (c.isNew <==> c.loanId !in db)
      && c.oldBalance == (if c.loanId in db then Some(db[c.loanId]) else None)
      && c.newBalance == latest.balances[c.loanId]
      && c.loanType == latest.types[c.loanId]
    ensures forall i | 0 <= i < |ids| && Differs(ids[i], latest.balances, db) ::
      exists c | c in BalanceChanges(ids, latest, db) :: c.loanId == ids[i]
  {
    if ids != [] {
      var init := ids[..|ids| - 1];
      BalanceChangesSpec(init, latest, db);
      forall i | 0 <= i < |init| ensures init[i] == ids[i] {
      }
      var id := ids[|ids| - 1];
      if Differs(id, latest.balances, db) {
        assert ChangeFor(id, latest, db) in BalanceChanges(ids, latest, db);
      }
    }
  }

  method ComputeBalanceChanges(latest: Latest, db: map<string, real>) returns (changes: seq<BalanceChange>)
    requires forall i | 0 <= i < |latest.order| :: latest.order[i] in latest.balances && latest.order[i] in latest.types
    ensures changes == BalanceChanges(latest.order, latest, db)
  {
    var ids := latest.order;
    changes := [];
    for i := 0 to |ids|
      invariant changes == BalanceChanges(ids[..i], latest, db)
    {
      assert ids[..i + 1][..i] == ids[..i];
      var id := ids[i];
      var csvBalance := latest.balances[id];
      if id !in db {
        changes := changes + [BalanceChange(id, latest.types[id], None, csvBalance, true)];
      } else if Abs(db[id] - csvBalance) > 0.005 {
        changes := changes + [BalanceChange(id, latest.types[id], Some(db[id]), csvBalance, false)];
      }
    }
    assert ids[..|ids|] == ids;
  }

  // ---------------------------------------------------------------- analysis: payments and totals

  datatype NewPayment = NewPayment(
    paymentDate: string, loanId: string, amount: real, principal: real, interest: real, newBalance: real, notes: string)

  predicate IsPayment(row: CsvRow)
  {
    row.description == "PAYMENT" && row.total > 0.0
  }

  /** The rows that are payments of a positive amount, in order. */
  function Payments(rows: seq<CsvRow>): (r: seq<CsvRow>)
    ensures |r| <= |rows|
  {
    if rows == [] then []
    else
      var row := rows[|rows| - 1];
      Payments(rows[..|rows| - 1]) + (if IsPayment(row) then [row] else [])
  }

  function RowKey(row: CsvRow): string
  {
    PaymentKey(row.date, row.loanId, row.total)
  }

  /** `existingKeys`: the fingerprints of the payments already recorded. */
  function ExistingKeys(payments: seq<DbPayment>): set<string>
  {
    set p | p in payments :: PaymentKey(p.paymentDate, p.loanId, p.amount)
  }

  function ToPayment(row: CsvRow): NewPayment
  {
    NewPayment(row.date, row.loanId, row.total, row.principal, row.interest, row.balance, "CSV Import")
  }

  /** The payments among the rows whose fingerprint is not yet recorded, as records to insert. */
  function NotImported(rows: seq<CsvRow>, keys: set<string>): (r: seq<NewPayment>)
    ensures |r| <= |rows|
  {
    if rows == [] then []
    else
      var row := rows[|rows| - 1];
      NotImported(rows[..|rows| - 1], keys) + (if RowKey(row) !in keys then [ToPayment(row)] else [])
  }

  /** Every payment to insert comes from a payment row of positive amount whose fingerprint the database does not hold. */
  lemma {:induction false} NewPaymentsSound(rows: seq<CsvRow>, keys: set<string>)
    ensures forall p | p in NotImported(Payments(rows), keys) ::
      exists i | 0 <= i < |rows| :: IsPayment(rows[i]) && RowKey(rows[i]) !in keys && p == ToPayment(rows[i])
  {
    if rows != [] {
      var init := rows[..|rows| - 1];
      var row := rows[|rows| - 1];
      NewPaymentsSound(init, keys);
      forall i | 0 <= i < |init| ensures init[i] == rows[i] {
      }
      NotImportedLast(init, row, keys);
    }
  }

  /** Every payment row of positive amount whose fingerprint the database does not hold is inserted. */
  lemma NewPaymentsComplete(rows: seq<CsvRow>, keys: set<string>)
    ensures forall i | 0 <= i < |rows| && IsPayment(rows[i]) && RowKey(rows[i]) !in keys ::
      ToPayment(rows[i]) in NotImported(Payments(rows), keys)
  {
    forall i | 0 <= i < |rows| && IsPayment(rows[i]) && RowKey(rows[i]) !in keys
      ensures ToPayment(rows[i]) in NotImported(Payments(rows), keys)
    {
      NewPaymentInserted(rows, keys, i);
    }
  }

  lemma {:induction false} NewPaymentInserted(rows: seq<CsvRow>, keys: set<string>, i: nat)
    requires i < |rows| && IsPayment(rows[i]) && RowKey(rows[i]) !in keys
    ensures ToPayment(rows[i]) in NotImported(Payments(rows), keys)
  {
    var init := rows[..|rows| - 1];
    var row := rows[|rows| - 1];
    assert rows == init + [row];
    NotImportedLast(init, row, keys);
    if i < |init| {
      assert rows[i] == init[i];
      NewPaymentInserted(init, keys, i);
    }
  }

  lemma NotImportedLast(init: seq<CsvRow>, row: CsvRow, keys: set<string>)
    ensures NotImported(Payments(init + [row]), keys)
         == NotImported(Payments(init), keys) + (if IsPayment(row) && RowKey(row) !in keys then [ToPayment(row)] else [])
  {
    assert (init + [row])[..|init|] == init;
    NotImportedAppend(Payments(init), if IsPayment(row) then [row] else [], keys);
    if IsPayment(row) {
      assert [row][..0] == [];
    }
  }

  lemma {:induction false} NotImportedAppend(a: seq<CsvRow>, b: seq<CsvRow>, keys: set<string>)
    ensures NotImported(a + b, keys) == NotImported(a, keys) + NotImported(b, keys)
    decreases |b|
  {
    if b == [] {
      assert a + b == a;
    } else {
      assert (a + b)[..|a + b| - 1] == a + b[..|b| - 1];
      NotImportedAppend(a, b[..|b| - 1], keys);
    }
  }

  /** `activeLoans`, `paidOffLoans`, `totalCurrentBalance`: counts and sum over the loans, in the order first seen. */
  function ActiveCount(ids: seq<string>, balances: map<string, real>): nat
    requires forall i | 0 <= i < |ids| :: ids[i] in balances
  {
    if ids == [] then 0
    else ActiveCount(ids[..|ids| - 1], balances) + (if balances[ids[|ids| - 1]] > 0.0 then 1 else 0)
  }

  function PaidOffCount(ids: seq<string>, balances: map<string, real>): nat
    requires forall i | 0 <= i < |ids| :: ids[i] in balances
  {
    if ids == [] then 0
    else PaidOffCount(ids[..|ids| - 1], balances) + (if balances[ids[|ids| - 1]] == 0.0 then 1 else 0)
  }

  function ActiveTotal(ids: seq<string>, balances: map<string, real>): real
    requires forall i | 0 <= i < |ids| :: ids[i] in balances
  {
    if ids == [] then 0.0
    else
      var b := balances[ids[|ids| - 1]];
      ActiveTotal(ids[..|ids| - 1], balances) + (if b > 0.0 then b else 0.0)
  }

  /**
   * No loan is both active and paid off; the outstanding total is positive
   * exactly when some loan is active.
   */
  lemma {:induction false} LoanCountsSpec(ids: seq<string>, balances: map<string, real>)
    requires forall i | 0 <= i < |ids| :: ids[i] in balances
    ensures ActiveCount(ids, balances) + PaidOffCount(ids, balances) <= |ids|
    ensures ActiveTotal(ids, balances) >= 0.0
    ensures ActiveTotal(ids, balances) > 0.0 <==> ActiveCount(ids, balances) > 0
  {
    if ids != [] {
      LoanCountsSpec(ids[..|ids| - 1], balances);
    }
  }

  // ---------------------------------------------------------------- analysis

  datatype Analysis = Analysis(
    balanceChanges: seq<BalanceChange>, newPayments: seq<NewPayment>,
    totalTransactions: nat, totalPaymentsInCSV: nat, totalPaidCSV: real,
    activeLoans: nat, paidOffLoans: nat, totalCurrentBalance: real,
    currentBalances: map<string, real>, loanTypes: map<string, string>, alreadyImported: int)

  function SumTotals(rows: seq<CsvRow>): real
  {
    if rows == [] then 0.0 else SumTotals(rows[..|rows| - 1]) + rows[|rows| - 1].total
  }

  /** The analysis assembled from the first-seen balances, the changes and the recorded fingerprints. */
  function Assemble(csv: seq<CsvRow>, latest: Latest, changes: seq<BalanceChange>, keys: set<string>): Analysis
    requires forall i | 0 <= i < |latest.order| :: latest.order[i] in latest.balances
  {
    var all := Payments(csv);
    var newPayments := NotImported(all, keys);
    Analysis(
      changes, newPayments, |csv|, |all|, SumTotals(all),
      ActiveCount(latest.order, latest.balances), PaidOffCount(latest.order, latest.balances),
      ActiveTotal(latest.order, latest.balances),
      latest.balances, latest.types, |all| - |newPayments|)
  }

  /** The `analysis` memo: nothing for an empty import; otherwise the comparison with the database. */
  function AnalyzeImport(csv: seq<CsvRow>, dbLoans: seq<DbLoan>, dbPayments: seq<DbPayment>): Option<Analysis>
  {
    if csv == [] then None
    else
      var latest := FirstBalances(csv);
      Some(Assemble(csv, latest, BalanceChanges(latest.order, latest, DbBalances(dbLoans)), ExistingKeys(dbPayments)))
  }

  /** The `analysis` memo with the screen's falsy first-row test (see `FirstBalancesAsWritten`). */
  function AnalyzeImportAsWritten(csv: seq<CsvRow>, dbLoans: seq<DbLoan>, dbPayments: seq<DbPayment>): Option<Analysis>
  {
    if csv == [] then None
    else
      var latest := FirstBalancesAsWritten(csv);
      Some(Assemble(csv, latest, BalanceChanges(latest.order, latest, DbBalances(dbLoans)), ExistingKeys(dbPayments)))
  }

  /**
   * The paid-off loan of `PaidOffBalanceOverwritten`, through the whole
   * analysis: as written it counts as one active loan owing 500; with the
   * first-row test it counts as paid off and nothing is owed.
   */
  lemma PaidOffLoanCountedActive()
    ensures var rows := [SampleRow("1-01", 0.0), SampleRow("1-01", 500.0)];
      var asWritten := AnalyzeImportAsWritten(rows, [], []);
      var intended := AnalyzeImport(rows, [], []);
      && asWritten.Some? && asWritten.value.activeLoans == 1 && asWritten.value.paidOffLoans == 0
      && asWritten.value.totalCurrentBalance == 500.0
      && intended.Some? && intended.value.activeLoans == 0 && intended.value.paidOffLoans == 1
      && intended.value.totalCurrentBalance == 0.0
  {
    var rows := [SampleRow("1-01", 0.0), SampleRow("1-01", 500.0)];
    assert rows[..1] == [SampleRow("1-01", 0.0)];
    assert rows[..1][..0] == [];
    assert FirstBalancesAsWritten(rows).order == ["1-01"];
    assert FirstBalances(rows).order == ["1-01"];
    assert ["1-01"][..0] == [];
  }

  /**
   * The analysis exists exactly for a non-empty import. Then it never counts
   * more already-imported payments than the import holds, and it reports a
   * change for a loan of the import exactly when the database lacks it or
   * differs by more than half a cent.
   */
  lemma AnalyzeImportSpec(csv: seq<CsvRow>, dbLoans: seq<DbLoan>, dbPayments: seq<DbPayment>)
    ensures AnalyzeImport(csv, dbLoans, dbPayments).Some? <==> csv != []
    ensures AnalyzeImport(csv, dbLoans, dbPayments).Some? ==>
      var a := AnalyzeImport(csv, dbLoans, dbPayments).value;
      && 0 <= a.alreadyImported <= a.totalPaymentsInCSV <= a.totalTransactions
      && a.activeLoans + a.paidOffLoans <= |a.currentBalances|
      && (forall i | 0 <= i < |csv| :: csv[i].loanId in a.currentBalances)
      && (forall i | 0 <= i < |csv| && Differs(csv[i].loanId, a.currentBalances, DbBalances(dbLoans)) ::
            exists c | c in a.balanceChanges :: c.loanId == csv[i].loanId)
      && (forall c | c in a.balanceChanges :: c.loanId in a.currentBalances && Differs(c.loanId, a.currentBalances, DbBalances(dbLoans)))
  {
    if csv != [] {
      var latest := FirstBalances(csv);
      var db := DbBalances(dbLoans);
      var all := Payments(csv);
      LoanCountsSpec(latest.order, latest.balances);
      DistinctCard(latest.order, latest.balances);
      BalanceChangesSpec(latest.order, latest, db);
      forall i | 0 <= i < |csv| ensures csv[i].loanId in latest.balances {
        FirstBalancesDomain(csv, csv[i].loanId);
      }
      forall i | 0 <= i < |csv| && Differs(csv[i].loanId, latest.balances, db)
        ensures exists c | c in BalanceChanges(latest.order, latest, db) :: c.loanId == csv[i].loanId
      {
        var id := csv[i].loanId;
        assert id in latest.order;
        var k :| 0 <= k < |latest.order| && latest.order[k] == id;
      }
    }
  }

  /** Distinct ids that all have a balance are no more than the balances. */
  lemma DistinctCard(ids: seq<string>, balances: map<string, real>)
    requires Distinct(ids)
    requires forall i | 0 <= i < |ids| :: ids[i] in balances
    requires forall id | id in balances :: id in ids
    ensures |ids| == |balances|
  {
    var keys := set i | 0 <= i < |ids| :: ids[i];
    assert keys == balances.Keys;
    DistinctSetSize(ids);
  }

  lemma {:induction false} DistinctSetSize(ids: seq<string>)
    requires Distinct(ids)
    ensures |set i | 0 <= i < |ids| :: ids[i]| == |ids|
  {
    if ids != [] {
      var init := ids[..|ids| - 1];
      DistinctSetSize(init);
      var s := set i | 0 <= i < |init| :: init[i];
      var t := set i | 0 <= i < |ids| :: ids[i];
      assert t == s + {ids[|ids| - 1]};
      assert ids[|ids| - 1] !in s;
    }
  }

  /** The `analysis` memo: the dictionaries filled by loops, the rest computed from them. */
  method ComputeAnalysis(csv: seq<CsvRow>, dbLoans: seq<DbLoan>, dbPayments: seq<DbPayment>) returns (result: Option<Analysis>)
    ensures result == AnalyzeImport(csv, dbLoans, dbPayments)
  {
    if csv == [] {
      return None;
    }
    var existingKeys := ExistingKeys(dbPayments);
    var latest := FillCurrentBalances(csv);
    var db := DbBalanceMap(dbLoans);
    var changes := ComputeBalanceChanges(latest, db);
    result := Some(Assemble(csv, latest, changes, existingKeys));
  }
}
