/**
 * backend/utils.py: truncating long strings in JSON-like data for logging, and the
 * small formatters that build text and records in loops.
 */
module DataUtils {
  import opened Wrappers
  import opened PyStrings
  import opened JsonValue

  // ---------------------------------------------------------------- truncate_data_strings

  const TruncateLimit: nat := 40

  /** A dict's string value: `value[:40]`, plus the original length when it was longer. */
  function TruncateString(s: string): (r: string)
    ensures |s| <= TruncateLimit ==> r == s
    ensures |s| > TruncateLimit ==> r == s[..TruncateLimit] + "... (" + NatToString(|s|) + " chars)"
  {
    var head := s[..if |s| < TruncateLimit then |s| else TruncateLimit];
    if |s| > TruncateLimit then head + "..." + " (" + NatToString(|s|) + " chars)" else head
  }

  /** The suffix of a truncated string spells out the original length in decimal. */
  lemma TruncatedLengthReadable(s: string)
    requires |s| > TruncateLimit
    ensures exists digits ::
      (TruncateString(s) == s[..TruncateLimit] + "... (" + digits + " chars)"
      && AllDigits(digits) && ParseDigits(digits) == |s|)
  {
    ParseNatToString(|s|);
    var digits := NatToString(|s|);
    assert TruncateString(s) == s[..TruncateLimit] + "... (" + digits + " chars)";
  }

  /** What happens to one value of a dict. */
  function TruncateValue(v: Json): (r: Json)
    decreases v, 1
  {
    if v.JObj? || v.JList? then Truncate(v)
    else if v.JStr? then JStr(TruncateString(v.s))
    else v
  }

  /**
   * `truncate_data_strings`. Dicts keep their keys in order, lists their length and order,
   * and anything else, a string included, comes back unchanged: only dict values are
   * ever truncated. The input is a value, so it is not changed either.
   */
  function Truncate(j: Json): (r: Json)
    ensures j.JObj? ==>
      (r.JObj? && |r.fields| == |j.fields|
      && forall i :: 0 <= i < |j.fields| ==> r.fields[i].0 == j.fields[i].0)
    ensures j.JList? ==> r.JList? && |r.items| == |j.items|
    ensures !j.JObj? && !j.JList? ==> r == j
    decreases j, 0
  {
    match j
    case JObj(fields) =>
      JObj(seq(|fields|, i requires 0 <= i < |fields| => (fields[i].0, TruncateValue(fields[i].1))))
    case JList(items) =>
      JList(seq(|items|, i requires 0 <= i < |items| => Truncate(items[i])))
    case _ => j
  }

  /** Dict values: nested data is processed recursively, strings are truncated, other scalars are kept. */
  lemma TruncateDictValue(fields: Fields, i: nat)
    requires i < |fields|
    ensures var v := fields[i].1;
      var r := Truncate(JObj(fields)).fields[i].1;
      (v.JObj? || v.JList? ==> r == Truncate(v))
      && (v.JStr? ==> r == JStr(TruncateString(v.s)))
      && (!v.JObj? && !v.JList? && !v.JStr? ==> r == v)
  {
  }

  /** List elements are processed recursively; a string element is left whole. */
  lemma TruncateListItem(items: seq<Json>, i: nat)
    requires i < |items|
    ensures Truncate(JList(items)).items[i] == Truncate(items[i])
    ensures items[i].JStr? ==> Truncate(JList(items)).items[i] == items[i]
  {
  }

  /** No dict anywhere inside holds a string longer than the limit. */
  predicate AllShort(j: Json)
    decreases j
  {
    match j
    case JObj(fields) => forall i :: 0 <= i < |fields| ==>
      (fields[i].1.JStr? ==> |fields[i].1.s| <= TruncateLimit) && AllShort(fields[i].1)
    case JList(items) => forall i :: 0 <= i < |items| ==> AllShort(items[i])
    case _ => true
  }

  /** Data with nothing to truncate comes back unchanged. */
  lemma {:induction false} TruncateShortUnchanged(j: Json)
    requires AllShort(j)
    ensures Truncate(j) == j
    decreases j
  {
    match j
    case JObj(fields) =>
      forall i | 0 <= i < |fields| ensures TruncateValue(fields[i].1) == fields[i].1 {
        var v := fields[i].1;
        if v.JObj? || v.JList? {
          TruncateShortUnchanged(v);
        }
      }
      assert Truncate(j).fields == fields;
    case JList(items) =>
      forall i | 0 <= i < |items| ensures Truncate(items[i]) == items[i] {
        TruncateShortUnchanged(items[i]);
      }
      assert Truncate(j).items == items;
    case _ =>
  }

  // ---------------------------------------------------------------- counting lines

  function CountChar(s: string, c: char): (r: nat)
    decreases |s|
  {
    if |s| == 0 then 0 else CountChar(s[..|s| - 1], c) + (if s[|s| - 1] == c then 1 else 0)
  }

  lemma {:induction false} CountCharAppend(a: string, b: string, c: char)
    ensures CountChar(a + b, c) == CountChar(a, c) + CountChar(b, c)
    decreases |b|
  {
    if |b| == 0 {
      assert a + b == a;
    } else {
      CountCharAppend(a, b[..|b| - 1], c);
      assert (a + b)[..|a + b| - 1] == a + b[..|b| - 1];
    }
  }

  lemma {:induction false} CountCharAbsent(s: string, c: char)
    requires c !in s
    ensures CountChar(s, c) == 0
    decreases |s|
  {
    if |s| > 0 {
      CountCharAbsent(s[..|s| - 1], c);
    }
  }

  // ---------------------------------------------------------------- format_user_data

  /** One event's line; `event[1]`, `event[2]` and `event[3]` are formatted with `str`. */
  function EventLine(event: seq<Json>): (r: string)
    requires |event| >= 4
  {
    "Event: " + Str(event[1]) + ", Time: " + Str(event[2]) + ", Data: " + Str(event[3]) + "\n"
  }

  /** The text for `events`, or the `IndexError` of the first event with fewer than four fields. */
  function FormattedEvents(events: seq<seq<Json>>): (r: Result<string, PyError>)
    ensures r.Ok? <==> forall i :: 0 <= i < |events| ==> |events[i]| >= 4
    ensures r.Err? ==> r.error == IndexError
    decreases |events|
  {
    if |events| == 0 then Ok("")
    else
      var init := events[..|events| - 1];
      assert forall i :: 0 <= i < |init| ==> init[i] == events[i];
      var text :- FormattedEvents(init);
      var last := events[|events| - 1];
      if |last| < 4 then Err(IndexError) else Ok(text + EventLine(last))
  }

  /** `format_user_data` */
  method FormatUserData(events: seq<seq<Json>>) returns (r: Result<string, PyError>)
    ensures r == FormattedEvents(events)
  {
    var result := "";
    var i := 0;
    while i < |events|
      invariant 0 <= i <= |events|
      invariant FormattedEvents(events[..i]) == Ok(result)
    {
      assert events[..i + 1][..i] == events[..i];
      if |events[i]| < 4 {
        FormattedEventsFails(events, i);
        return Err(IndexError);
      }
      result := result + EventLine(events[i]);
      i := i + 1;
    }
    assert events[..i] == events;
    r := Ok(result);
  }

  lemma FormattedEventsFails(events: seq<seq<Json>>, i: nat)
    requires i < |events| && |events[i]| < 4
    ensures FormattedEvents(events) == Err(IndexError)
  {
  }

  /** With no line break inside the formatted fields, the text has exactly one line per event. */
  lemma {:induction false} OneLinePerEvent(events: seq<seq<Json>>)
    requires FormattedEvents(events).Ok?
    requires forall i, k :: 0 <= i < |events| && 1 <= k <= 3 ==> '\n' !in Str(events[i][k])
    ensures CountChar(FormattedEvents(events).value, '\n') == |events|
    decreases |events|
  {
    if |events| > 0 {
      var init := events[..|events| - 1];
      var last := events[|events| - 1];
      assert forall i :: 0 <= i < |init| ==> init[i] == events[i];
      OneLinePerEvent(init);
      EventLineCount(last);
      CountCharAppend(FormattedEvents(init).value, EventLine(last), '\n');
    }
  }

  /** An event whose formatted fields hold no line break makes exactly one line. */
  lemma EventLineCount(event: seq<Json>)
    requires |event| >= 4
    requires forall k :: 1 <= k <= 3 ==> '\n' !in Str(event[k])
    ensures CountChar(EventLine(event), '\n') == 1
  {
    var body := "Event: " + Str(event[1]) + ", Time: " + Str(event[2]) + ", Data: " + Str(event[3]);
    assert EventLine(event) == body + "\n";
    CountCharAbsent(body, '\n');
    CountCharAppend(body, "\n", '\n');
  }

  // ---------------------------------------------------------------- process_completion_data

  /** One record of `process_completion_data`. */
  datatype CompletionSummary = CompletionSummary(content: string, summary: string, length: nat)

  const LargeThreshold: nat := 1000

  /** The record for one completion: the summary names the length, and is marked large exactly when it exceeds 1000. */
  function Summarize(completion: string): (r: CompletionSummary)
    ensures r.content == completion && r.length == |completion|
    ensures StartsWith(r.summary, "Completion length: " + NatToString(|completion|))
    ensures EndsWith(r.summary, " (Large)") <==> |completion| > LargeThreshold
  {
    var n := |completion|;
    var head := "Completion length: " + NatToString(n);
    if n > LargeThreshold then
      ConcatEnds(head, " (Large)");
      CompletionSummary(completion, head + " (Large)", n)
    else
      assert head[..|head|] == head;
      EndsInDigit("Completion length: ", NatToString(n));
      CompletionSummary(completion, head, n)
  }

  /** A text ending in a digit does not end with the large marker. */
  lemma EndsInDigit(prefix: string, digits: string)
    requires |digits| >= 1 && '0' <= digits[|digits| - 1] <= '9'
    ensures !EndsWith(prefix + digits, " (Large)")
  {
    var s := prefix + digits;
    assert s[|s| - 1] == digits[|digits| - 1];
  }

  /** `process_completion_data`: one record per completion, in order; the length is counted character by character. */
  method ProcessCompletionData(completions: seq<string>) returns (processed: seq<CompletionSummary>)
    ensures |processed| == |completions|
    ensures forall i :: 0 <= i < |completions| ==> processed[i] == Summarize(completions[i])
  {
    processed := [];
    for i := 0 to |completions|
      invariant |processed| == i
      invariant forall k :: 0 <= k < i ==> processed[k] == Summarize(completions[k])
    {
      var completion := completions[i];
      var charCount := 0;
      for j := 0 to |completion|
        invariant charCount == j
      {
        charCount := charCount + 1;
      }
      var summary := "Completion length: " + NatToString(charCount);
      if charCount > LargeThreshold {
        summary := summary + " (Large)";
      }
      processed := processed + [CompletionSummary(completion, summary, charCount)];
    }
  }

  // ---------------------------------------------------------------- validate_input_data

  /** `validate_input_data`: false exactly for `None` and for the empty string. */
  function ValidateInputData(data: Json): (r: bool)
    ensures !r <==> data == JNull || data == JStr("")
  {
    if data == JNull then false
    else if |Str(data)| == 0 then false
    else true
  }

  // ---------------------------------------------------------------- generate_report_text

  function Repeat(c: char, n: nat): (r: string)
    ensures |r| == n && forall i :: 0 <= i < n ==> r[i] == c
  {
    if n == 0 then "" else Repeat(c, n - 1) + [c]
  }

  /** `"Report Generated\n" + "=" * 20 + "\n"` */
  function ReportHeader(): (r: string) {
    "Report Generated\n" + Repeat('=', 20) + "\n"
  }

  function ReportFooter(n: nat): (r: string) {
    "\nTotal items: " + NatToString(n)
  }

  function ItemLine(number: nat, item: Json): (r: string) {
    "Item " + NatToString(number) + ": " + Str(item) + "\n"
  }

  /** The item lines for `items`, numbered from `first`. */
  function ItemLines(items: seq<Json>, first: nat): (r: string)
    decreases |items|
  {
    if |items| == 0 then "" else ItemLine(first, items[0]) + ItemLines(items[1..], first + 1)
  }

  /** The report text: header, one numbered line per item in order, then the total. */
  function ReportText(items: seq<Json>): (r: string)
    ensures StartsWith(r, ReportHeader()) && EndsWith(r, ReportFooter(|items|))
  {
    var head := ReportHeader();
    var tail := ReportFooter(|items|);
    ConcatEnds(head, ItemLines(items, 1) + tail);
    ConcatEnds(head + ItemLines(items, 1), tail);
    assert head + (ItemLines(items, 1) + tail) == (head + ItemLines(items, 1)) + tail;
    head + ItemLines(items, 1) + tail
  }

  /** Adding an item at the end adds its line, numbered after the others, at the end. */
  lemma {:induction false} ItemLinesSnoc(items: seq<Json>, x: Json, first: nat)
    ensures ItemLines(items + [x], first) == ItemLines(items, first) + ItemLine(first + |items|, x)
    decreases |items|
  {
    if |items| == 0 {
      assert (items + [x])[1..] == [];
    } else {
      assert (items + [x])[1..] == items[1..] + [x];
      ItemLinesSnoc(items[1..], x, first + 1);
    }
  }

  /** One more item line keeps the report equal to its specification so far. */
  lemma ReportStep(items: seq<Json>, i: nat, head: string, report: string)
    requires i < |items| && report == head + ItemLines(items[..i], 1)
    ensures report + ItemLine(i + 1, items[i]) == head + ItemLines(items[..i + 1], 1)
  {
    ItemLinesPrefix(items, i);
    ConcatAssoc(head, ItemLines(items[..i], 1), ItemLine(i + 1, items[i]));
  }

  /** The lines of one more item of `items`. */
  lemma ItemLinesPrefix(items: seq<Json>, i: nat)
    requires i < |items|
    ensures ItemLines(items[..i + 1], 1) == ItemLines(items[..i], 1) + ItemLine(i + 1, items[i])
  {
    var prefix := items[..i];
    assert items[..i + 1] == prefix + [items[i]];
    ItemLinesSnoc(prefix, items[i], 1);
  }

  /** `generate_report_text` */
  method GenerateReportText(items: seq<Json>) returns (report: string)
    ensures report == ReportText(items)
  {
    report := "Report Generated\n";
    report := report + Repeat('=', 20) + "\n";
    for i := 0 to |items|
      invariant report == ReportHeader() + ItemLines(items[..i], 1)
    {
      ReportStep(items, i, ReportHeader(), report);
      report := report + ItemLine(i + 1, items[i]);
    }
    assert items[..|items|] == items;
    report := report + ReportFooter(|items|);
  }

  lemma ConcatEnds(a: string, b: string)
    ensures StartsWith(a + b, a) && EndsWith(a + b, b)
  {
    assert (a + b)[..|a|] == a;
    assert (a + b)[|a + b| - |b|..] == b;
  }

  lemma HeaderLines()
    ensures CountChar(ReportHeader(), '\n') == 2
  {
    var title := "Report Generated";
    var rule := Repeat('=', 20);
    assert ReportHeader() == ((title + "\n") + rule) + "\n";
    CountCharAbsent(title, '\n');
    CountCharAbsent(rule, '\n');
    CountCharAppend(title, "\n", '\n');
    CountCharAppend(title + "\n", rule, '\n');
    CountCharAppend(title + "\n" + rule, "\n", '\n');
  }

  lemma FooterLines(n: nat)
    ensures CountChar(ReportFooter(n), '\n') == 1
  {
    var total := "Total items: " + NatToString(n);
    assert ReportFooter(n) == "\n" + total;
    CountCharAbsent(total, '\n');
    CountCharAppend("\n", total, '\n');
  }

  /**
   * With no line break inside any item's text, the report has the two header lines,
   * one line per item and the total line.
   */
  lemma ReportLineCount(items: seq<Json>)
    requires forall i :: 0 <= i < |items| ==> '\n' !in Str(items[i])
    ensures CountChar(ReportText(items), '\n') == 3 + |items|
  {
    ItemLinesCount(items, 1);
    HeaderLines();
    FooterLines(|items|);
    CountCharAppend(ReportHeader(), ItemLines(items, 1), '\n');
    CountCharAppend(ReportHeader() + ItemLines(items, 1), ReportFooter(|items|), '\n');
  }

  lemma {:induction false} ItemLinesCount(items: seq<Json>, first: nat)
    requires forall i :: 0 <= i < |items| ==> '\n' !in Str(items[i])
    ensures CountChar(ItemLines(items, first), '\n') == |items|
    decreases |items|
  {
    if |items| > 0 {
      ItemLinesCount(items[1..], first + 1);
      var body := "Item " + NatToString(first) + ": " + Str(items[0]);
      assert ItemLine(first, items[0]) == body + "\n";
      CountCharAbsent(body, '\n');
      CountCharAppend(body, "\n", '\n');
      CountCharAppend(ItemLine(first, items[0]), ItemLines(items[1..], first + 1), '\n');
    }
  }
}
