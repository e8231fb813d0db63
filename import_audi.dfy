/** The one-shot import of an exported expense table (`Name,Amount,Category,Created`)
    into project 1. `scripts/import_audi.cjs` and `scripts/import_audi.ts` read
    the file the same way and differ only in the EUR amount: the first rounds
    it to cents, the second does not.

    `parseFloat` is the parameter `parse` (`None` for NaN, which the store
    receives as `null`). */
module ImportAudi {
  import opened Wrappers
  import opened Text
  import opened Store

  /** Leva per euro. */
  const BgnPerEur: real := 1.95583

  /** The project every imported expense belongs to. */
  const TargetProject: int := 1

  /** `lines.filter(line => line.trim() !== '')`: the non-blank lines, in order. */
  function NonBlank(lines: seq<string>): (r: seq<string>)
    ensures |r| <= |lines|
    ensures forall l :: l in r <==> l in lines && !IsBlank(l)
  {
    if lines == [] then []
    else (if IsBlank(lines[0]) then [] else [lines[0]]) + NonBlank(lines[1..])
  }

  /** The filter keeps the order of the lines. */
  lemma {:induction false} NonBlankConcat(a: seq<string>, b: seq<string>)
    ensures NonBlank(a + b) == NonBlank(a) + NonBlank(b)
  {
    if a == [] {
      assert a + b == b;
    } else {
      assert (a + b)[0] == a[0];
      assert (a + b)[1..] == a[1..] + b;
      NonBlankConcat(a[1..], b);
    }
  }

  /** `fileContent.split('\n').slice(1)` filtered: the header line is dropped. */
  function DataLines(content: string): seq<string> {
    NonBlank(Split(content, '\n')[1..])
  }

  /** The header line does not reach the data lines: whatever the first line
      holds, the rest of the file gives the same rows. */
  lemma HeaderIgnored(header1: string, header2: string, body: string)
    requires '\n' !in header1 && '\n' !in header2
    ensures DataLines(header1 + "\n" + body) == DataLines(header2 + "\n" + body)
    ensures DataLines(header1 + "\n" + body) == NonBlank(Split(body, '\n'))
  {
    SplitAfterPiece(header1, '\n', body);
    SplitAfterPiece(header2, '\n', body);
  }

  /** The text fields of one data line. */
  datatype Fields = Fields(description: string, amountText: string, category: string, date: string)

  /** The fields read from `line.split(',')`: the name, the amount text, the
      category cut at " (" with quotes removed, and every part after the third
      joined back with ',' and quotes removed. `None` when the line has fewer
      than three parts, where `parts[2].split` throws. */
  function RowFields(line: string): Option<Fields> {
    var parts := Split(line, ',');
    if |parts| < 3 then None
    else Some(Fields(parts[0], parts[1], RemoveQuotes(BeforeParen(parts[2])), RemoveQuotes(Join(parts[3..], ','))))
  }

  /** The first two fields hold no comma and the last two no quote. */
  lemma RowFieldsClean(line: string)
    ensures RowFields(line).None? <==> |Split(line, ',')| < 3
    ensures RowFields(line).Some? ==>
      var f := RowFields(line).value;
      ',' !in f.description && ',' !in f.amountText && '"' !in f.category && '"' !in f.date
  {
  }

  /** A line `description,amount,category,rest` with no comma in its first three
      fields: the date is `rest` with its quotes removed, commas and all. */
  lemma {:induction false} RowFieldsOfLine(description: string, amount: string, category: string, rest: string)
    requires ',' !in description && ',' !in amount && ',' !in category
    ensures RowFields(description + "," + amount + "," + category + "," + rest) ==
            Some(Fields(description, amount, RemoveQuotes(BeforeParen(category)), RemoveQuotes(rest)))
  {
    var line := description + "," + amount + "," + category + "," + rest;
    assert line == description + [','] + (amount + [','] + (category + [','] + rest));
    SplitAfterPiece(description, ',', amount + [','] + (category + [','] + rest));
    SplitAfterPiece(amount, ',', category + [','] + rest);
    SplitAfterPiece(category, ',', rest);
    var parts := Split(line, ',');
    assert parts == [description, amount, category] + Split(rest, ',');
    assert parts[3..] == Split(rest, ',');
    JoinSplit(rest, ',');
  }

  /** A line is read exactly when it holds at least two commas. */
  lemma RowFieldsNeedTwoCommas(line: string)
    ensures RowFields(line).None? <==> multiset(line)[','] < 2
  {
    SplitCount(line, ',');
  }

  /** A quoted date such as `"July 24, 2025"` in the last column is read
      without its quotes, its commas and characters in order. */
  lemma QuotedDateUnquoted(description: string, amount: string, category: string, date: string)
    requires ',' !in description && ',' !in amount && ',' !in category && '"' !in date
    ensures RowFields(description + "," + amount + "," + category + ",\"" + date + "\"").Some?
    ensures RowFields(description + "," + amount + "," + category + ",\"" + date + "\"").value.date == date
  {
    var rest := "\"" + date + "\"";
    assert description + "," + amount + "," + category + ",\"" + date + "\"" ==
           description + "," + amount + "," + category + "," + rest;
    RowFieldsOfLine(description, amount, category, rest);
    RemoveQuotesConcat("\"" + date, "\"");
    RemoveQuotesConcat("\"", date);
    RemoveQuotesChar('"');
    RemoveQuotesNone(date);
  }

  /** Text without quotes is left as it is. */
  lemma {:induction false} RemoveQuotesNone(s: string)
    requires '"' !in s
    ensures RemoveQuotes(s) == s
  {
    if s != [] {
      RemoveQuotesNone(s[1..]);
      assert s == [s[0]] + s[1..];
    }
  }

  /** A category exported as `"Name (link)"` is read as `Name`: the link is cut
      off at " (" and the quotes go. */
  lemma CategoryLinkStripped(name: string, link: string)
    requires '"' !in name
    requires forall i :: 0 <= i < |name| - 1 ==> !(name[i] == ' ' && name[i + 1] == '(')
    ensures RemoveQuotes(BeforeParen("\"" + name + " (" + link)) == name
  {
    var quoted := "\"" + name;
    assert forall i :: 0 <= i < |quoted| - 1 ==> !(quoted[i] == ' ' && quoted[i + 1] == '(') by {
      forall i | 0 <= i < |quoted| - 1
        ensures !(quoted[i] == ' ' && quoted[i + 1] == '(')
      {
        if i > 0 {
          assert quoted[i] == name[i - 1] && quoted[i + 1] == name[i];
        }
      }
    }
    assert "\"" + name + " (" + link == quoted + " (" + link;
    BeforeParenAt(quoted, link);
    assert quoted[1..] == name;
    RemoveQuotesNone(name);
  }

  /** `Math.round(x * 100) / 100`, with `Math.round` rounding halves up. */
  function RoundCents(x: real): (r: real)
    ensures x - 0.005 < r <= x + 0.005
  {
    ((x * 100.0 + 0.5).Floor as real) / 100.0
  }

  /** A whole number of cents. */
  lemma RoundCentsIsCents(x: real)
    ensures (RoundCents(x) * 100.0).Floor as real == RoundCents(x) * 100.0
  {
  }

  /** The record built from one line's fields. */
  function Record(f: Fields, parse: string -> Option<real>, roundCents: bool): (e: NewExpense)
    ensures e.projectId == TargetProject && e.description == f.description
    ensures e.amountBgn == parse(f.amountText)
    ensures e.amount.Some? <==> e.amountBgn.Some?
    ensures e.amount.Some? && !roundCents ==> e.amount.value * BgnPerEur == e.amountBgn.value
    ensures e.amount.Some? && roundCents ==> e.amount.value == RoundCents(e.amountBgn.value / BgnPerEur)
    ensures e.category == f.category && e.date == f.date
  {
    var bgn := parse(f.amountText);
    var amount := match bgn
      case None => None
      case Some(b) => Some(if roundCents then RoundCents(b / BgnPerEur) else b / BgnPerEur);
    NewExpense(TargetProject, f.description, bgn, amount, f.category, f.date)
  }

  /** `dataLines.map(...)`: one record per line, or the index of the first
      line whose mapping throws. */
  function MapRows(lines: seq<string>, parse: string -> Option<real>, roundCents: bool): (r: Result<seq<NewExpense>, nat>)
    ensures r.Success? ==> |r.value| == |lines|
    ensures r.Failure? ==> r.error < |lines|
  {
    if lines == [] then Success([])
    else match RowFields(lines[0])
      case None => Failure(0)
      case Some(f) =>
        match MapRows(lines[1..], parse, roundCents)
        case Success(rest) => Success([Record(f, parse, roundCents)] + rest)
        case Failure(k) => Failure(k + 1)
  }

  /** The mapping succeeds iff every line is readable. */
  lemma {:induction false} MapRowsSucceeds(lines: seq<string>, parse: string -> Option<real>, roundCents: bool)
    ensures MapRows(lines, parse, roundCents).Success? <==> forall i :: 0 <= i < |lines| ==> RowFields(lines[i]).Some?
  {
    if lines != [] && RowFields(lines[0]).Some? {
      MapRowsSucceeds(lines[1..], parse, roundCents);
      assert forall i :: 1 <= i < |lines| ==> lines[i] == lines[1..][i - 1];
    }
  }

  /** On success record `i` is built from line `i`. */
  lemma {:induction false} MapRowsRecords(lines: seq<string>, parse: string -> Option<real>, roundCents: bool)
    ensures MapRows(lines, parse, roundCents).Success? ==> forall i :: 0 <= i < |lines| ==>
      RowFields(lines[i]).Some? &&
      MapRows(lines, parse, roundCents).value[i] == Record(RowFields(lines[i]).value, parse, roundCents)
  {
    if lines != [] && RowFields(lines[0]).Some? && MapRows(lines, parse, roundCents).Success? {
      var rest := lines[1..];
      MapRowsRecords(rest, parse, roundCents);
      var head := Record(RowFields(lines[0]).value, parse, roundCents);
      var tail := MapRows(rest, parse, roundCents).value;
      assert MapRows(lines, parse, roundCents).value == [head] + tail;
      forall i | 1 <= i < |lines|
        ensures RowFields(lines[i]).Some? &&
                MapRows(lines, parse, roundCents).value[i] == Record(RowFields(lines[i]).value, parse, roundCents)
      {
        assert lines[i] == rest[i - 1];
        assert ([head] + tail)[i] == tail[i - 1];
      }
    }
  }

  /** On failure the error names the first unreadable line. */
  lemma {:induction false} MapRowsStops(lines: seq<string>, parse: string -> Option<real>, roundCents: bool)
    ensures MapRows(lines, parse, roundCents).Failure? ==>
      var k := MapRows(lines, parse, roundCents).error;
      RowFields(lines[k]).None? && forall i :: 0 <= i < k ==> RowFields(lines[i]).Some?
  {
    if lines != [] && RowFields(lines[0]).Some? {
      MapRowsStops(lines[1..], parse, roundCents);
      assert forall i :: 1 <= i < |lines| ==> lines[i] == lines[1..][i - 1];
    }
  }

  /** Every record of a successful mapping belongs to project 1. */
  lemma RecordsBelongToTarget(lines: seq<string>, parse: string -> Option<real>, roundCents: bool)
    ensures MapRows(lines, parse, roundCents).Success? ==>
      forall e :: e in MapRows(lines, parse, roundCents).value ==> e.projectId == TargetProject
  {
    var r := MapRows(lines, parse, roundCents);
    if r.Success? {
      MapRowsRecords(lines, parse, roundCents);
      forall e | e in r.value ensures e.projectId == TargetProject {
        var i :| 0 <= i < |r.value| && r.value[i] == e;
      }
    }
  }

  /** The rows `scripts/import_audi.cjs` inserts. */
  function ImportRounded(content: string, parse: string -> Option<real>): Result<seq<NewExpense>, nat> {
    MapRows(DataLines(content), parse, true)
  }

  /** The rows `scripts/import_audi.ts` inserts. */
  function ImportUnrounded(content: string, parse: string -> Option<real>): Result<seq<NewExpense>, nat> {
    MapRows(DataLines(content), parse, false)
  }

  /** Every record belongs to project 1, and there is one per data line. */
  lemma ImportShape(content: string, parse: string -> Option<real>)
    ensures ImportRounded(content, parse).Success? ==>
      |ImportRounded(content, parse).value| == |DataLines(content)|
      && forall e :: e in ImportRounded(content, parse).value ==> e.projectId == TargetProject
    ensures ImportUnrounded(content, parse).Success? ==>
      |ImportUnrounded(content, parse).value| == |DataLines(content)|
      && forall e :: e in ImportUnrounded(content, parse).value ==> e.projectId == TargetProject
  {
    RecordsBelongToTarget(DataLines(content), parse, true);
    RecordsBelongToTarget(DataLines(content), parse, false);
  }

  /** The two scripts fail on the same inputs, at the same line. */
  lemma {:induction false} ScriptsFailAlike(lines: seq<string>, parse: string -> Option<real>)
    ensures MapRows(lines, parse, true).Success? <==> MapRows(lines, parse, false).Success?
    ensures MapRows(lines, parse, true).Failure? ==>
      MapRows(lines, parse, true).error == MapRows(lines, parse, false).error
  {
    if lines != [] && RowFields(lines[0]).Some? {
      ScriptsFailAlike(lines[1..], parse);
    }
  }

  /** One line read by both scripts: the records differ only in the amount,
      which the rounding script rounds to cents. */
  lemma RecordsDifferOnlyInAmount(f: Fields, parse: string -> Option<real>)
    ensures Record(f, parse, true) == Record(f, parse, false).(amount := Record(f, parse, true).amount)
    ensures Record(f, parse, false).amount.Some? ==>
      Record(f, parse, true).amount == Some(RoundCents(Record(f, parse, false).amount.value))
  {
  }

  /** On a successful import the two scripts produce the same records but for
      the amounts, which the rounding script rounds to cents. */
  lemma ScriptsDifferOnlyInAmount(lines: seq<string>, parse: string -> Option<real>)
    ensures MapRows(lines, parse, true).Success? ==>
      MapRows(lines, parse, false).Success? &&
      var rounded, exact := MapRows(lines, parse, true).value, MapRows(lines, parse, false).value;
      |rounded| == |exact| &&
      forall i :: 0 <= i < |rounded| ==>
        rounded[i] == exact[i].(amount := rounded[i].amount) &&
        (exact[i].amount.Some? ==> rounded[i].amount == Some(RoundCents(exact[i].amount.value)))
  {
    if MapRows(lines, parse, true).Success? {
      ScriptsFailAlike(lines, parse);
      MapRowsSucceeds(lines, parse, true);
      MapRowsRecords(lines, parse, true);
      MapRowsRecords(lines, parse, false);
      forall i | 0 <= i < |lines| {
        RecordsDifferOnlyInAmount(RowFields(lines[i]).value, parse);
      }
    }
  }

}
