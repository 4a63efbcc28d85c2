/** Parse: five fields make a schedule. */
module CronParse {
  import opened Model
  import opened CronText
  import opened CronField
  import opened CronNext
  import opened CronHorizon

  /** The schedule of an expression, None when Parse rejects it. */
  function Compiled(expr: string): Option<Schedule> {
    var f := Fields(expr);
    if |f| != 5 then None
    else
      var minute, hour, day, month, weekday :=
        FieldList(f[0], 0, 59), FieldList(f[1], 0, 23), FieldList(f[2], 1, 31), FieldList(f[3], 1, 12),
          FieldList(f[4], 0, 6);
      if minute.None? || hour.None? || day.None? || month.None? || weekday.None? then None
      else Some(Schedule(minute.value, hour.value, day.value, month.value, weekday.value))
  }

  method Parse(expr: string) returns (s: Option<Schedule>)
    ensures s == Compiled(expr)
  {
    hide FieldList, Fields;
    var fields := Fields(expr);
    if |fields| != 5 {
      return None;
    }
    var minute := ParseField(fields[0], 0, 59);
    if minute.None? {
      return None;
    }
    var hour := ParseField(fields[1], 0, 23);
    if hour.None? {
      return None;
    }
    var dayOfMonth := ParseField(fields[2], 1, 31);
    if dayOfMonth.None? {
      return None;
    }
    var month := ParseField(fields[3], 1, 12);
    if month.None? {
      return None;
    }
    var dayOfWeek := ParseField(fields[4], 0, 6);
    if dayOfWeek.None? {
      return None;
    }
    return Some(Schedule(minute.value, hour.value, dayOfMonth.value, month.value, dayOfWeek.value));
  }

  // ---------- every parsed schedule can fire ----------

  /** An accepted field lists at least one value within its bounds, overflow or not. */
  lemma FieldListsSome(raw: string, min: int, max: int)
    requires 0 <= min <= max <= 59 && FieldList(raw, min, max).Some?
    ensures exists v :: min <= v <= max && v in FieldList(raw, min, max).value
  {
    var rs := ReadField(raw, min, max).value;
    FitInMinutes(rs, min, max);
    assert Fits(rs[0], min, max);
    ListsFirst(rs);
  }

  lemma {:induction false} ListsFirst(rs: seq<Range>)
    requires rs != [] && AllFit(rs, 0, 59)
    ensures rs[0].lo in Listed(rs)
  {
    assert Fits(rs[0], 0, 59);
    if |rs| == 1 {
      ListedAlone(rs[0]);
      assert rs == [rs[0]];
    } else {
      ListsFirst(rs[..|rs| - 1]);
    }
  }

  lemma ParsedHasTime(expr: string)
    requires Compiled(expr).Some?
    ensures SomeTime(Compiled(expr).value)
  {
    hide FieldList, Fields;
    FieldListsSome(Fields(expr)[0], 0, 59);
    FieldListsSome(Fields(expr)[1], 0, 23);
  }

  lemma StarIsEveryWeekday()
    ensures FieldList("*", 0, 6).Some? && forall w :: 0 <= w <= 6 ==> w in FieldList("*", 0, 6).value
  {
    forall w | 0 <= w <= 6 ensures w in FieldList("*", 0, 6).value {
      StarListsAll(0, 6, w);
    }
  }

  /** An expression with the weekday left open fires from every instant if and only if it names a date that exists. */
  lemma OpenWeekdayFires(expr: string, after: int)
    requires Compiled(expr).Some? && Fields(expr)[4] == "*"
    ensures !NoneUpTo(Compiled(expr).value, after, Horizon(after)) <==> SomeDate(Compiled(expr).value)
  {
    hide NoneUpTo, SomeDate, Horizon, Fields, SomeTime, FieldList;
    ParsedHasTime(expr);
    StarIsEveryWeekday();
    HorizonSufficesForDates(Compiled(expr).value, after);
  }

  /** An expression with the day of the month left open always fires. */
  lemma OpenDayFires(expr: string, after: int)
    requires Compiled(expr).Some? && Fields(expr)[2] == "*"
    ensures !NoneUpTo(Compiled(expr).value, after, Horizon(after))
  {
    hide NoneUpTo, Horizon, Fields, SomeTime, FieldList;
    ParsedHasTime(expr);
    StarIsEveryDay();
    FieldListsSome(Fields(expr)[3], 1, 12);
    FieldListsSome(Fields(expr)[4], 0, 6);
    var s := Compiled(expr).value;
    var m :| 1 <= m <= 12 && m in s.month;
    var w :| 0 <= w <= 6 && w in s.dayOfWeek;
    HorizonSufficesForWeekdays(s, after, m, w);
  }

  lemma StarIsEveryDay()
    ensures FieldList("*", 1, 31).Some? && forall d :: 1 <= d <= 31 ==> d in FieldList("*", 1, 31).value
  {
    forall d | 1 <= d <= 31 ensures d in FieldList("*", 1, 31).value {
      StarListsAll(1, 31, d);
    }
  }

  /** An accepted expression's fire times all match if and only if every eight years in a row have a day it names. */
  lemma FireTimesMatchIff(expr: string)
    requires Compiled(expr).Some?
    ensures var s := Compiled(expr).value;
      (forall after, r :: IsNext(s, after, r) ==> Matches(s, r)) <==>
        (forall c :: 0 <= c < 400 ==> HasWithinEight(s, c))
  {
    hide SomeTime, IsNext, Matches, HasWithinEight, Compiled;
    ParsedHasTime(expr);
    AnswersMatchIff(Compiled(expr).value);
  }

  // ---------- writing an expression ----------

  predicate IsWord(w: string) {
    w != "" && forall i :: 0 <= i < |w| ==> !IsSpace(w[i])
  }

  lemma {:induction false} FieldsOfWords(words: seq<string>)
    requires words != [] && forall i :: 0 <= i < |words| ==> IsWord(words[i])
    ensures Fields(Join(words, ' ')) == words
  {
    assert IsWord(words[0]);
    if |words| == 1 {
      FieldsOfWord(words[0]);
    } else {
      var rest := words[1..];
      forall i | 0 <= i < |rest| ensures IsWord(rest[i]) {
        assert rest[i] == words[i + 1];
      }
      FieldsOfWords(rest);
      FieldsAfterWord(words[0], Join(rest, ' '));
      assert words == [words[0]] + rest;
    }
  }

  lemma FieldsOfWord(w: string)
    requires IsWord(w)
    ensures Fields(w) == [w]
  {
    WordIsWord(w);
    assert w[..|w|] == w && w[|w|..] == "";
  }

  lemma FieldsAfterWord(w: string, tail: string)
    requires IsWord(w)
    ensures Fields(w + [' '] + tail) == [w] + Fields(tail)
  {
    var s := w + [' '] + tail;
    WordBeforeSpace(w, tail);
    assert s[..|w|] == w && s[|w|..] == [' '] + tail && s[|w|..][1..] == tail && s[0] == w[0];
  }

  lemma {:induction false} WordBeforeSpace(w: string, rest: string)
    requires forall i :: 0 <= i < |w| ==> !IsSpace(w[i])
    ensures WordLength(w + [' '] + rest) == |w|
  {
    if w != "" {
      WordBeforeSpace(w[1..], rest);
      assert (w + [' '] + rest)[1..] == w[1..] + [' '] + rest;
    } else {
      assert w + [' '] + rest == [' '] + rest;
    }
  }

  predicate Spaceless(s: string) {
    forall i :: 0 <= i < |s| ==> !IsSpace(s[i])
  }

  lemma {:induction false} JoinIsWord(parts: seq<string>)
    requires parts != [] && forall i :: 0 <= i < |parts| ==> IsWord(parts[i])
    ensures IsWord(Join(parts, ','))
  {
    assert IsWord(parts[0]);
    if |parts| > 1 {
      var rest := parts[1..];
      forall i | 0 <= i < |rest| ensures IsWord(rest[i]) {
        assert rest[i] == parts[i + 1];
      }
      JoinIsWord(rest);
    }
  }

  lemma TextIsWord(r: Range)
    requires 0 <= r.lo <= r.hi && 0 < r.step
    ensures IsWord(Text(r))
  {
    hide Decimal;
    var lo, hi, step := Decimal(r.lo), Decimal(r.hi), Decimal(r.step);
    forall s | s == lo || s == hi || s == step ensures Spaceless(s) {
      forall i | 0 <= i < |s| ensures !IsSpace(s[i]) {
        assert IsDigit(s[i]);
      }
    }
  }

  lemma FieldIsWord(rs: seq<Range>)
    requires rs != [] && AllFit(rs, 0, 59)
    ensures IsWord(Join(Texts(rs), ','))
  {
    hide Text;
    forall i | 0 <= i < |rs| ensures IsWord(Texts(rs)[i]) {
      assert Fits(rs[i], 0, 59);
      TextIsWord(rs[i]);
    }
    JoinIsWord(Texts(rs));
  }

  function Written(rs: seq<Range>): string
    requires rs != [] && AllFit(rs, 0, 59)
  {
    Join(Texts(rs), ',')
  }

  /** Any five lists of ranges within the bounds can be written as an expression that Parse reads back. */
  lemma ParseOfWritten(minute: seq<Range>, hour: seq<Range>, day: seq<Range>, month: seq<Range>, weekday: seq<Range>)
    requires minute != [] && hour != [] && day != [] && month != [] && weekday != []
    requires AllFit(minute, 0, 59) && AllFit(hour, 0, 23) && AllFit(day, 1, 31) && AllFit(month, 1, 12)
        && AllFit(weekday, 0, 6)
    requires AllFit(hour, 0, 59) && AllFit(day, 0, 59) && AllFit(month, 0, 59) && AllFit(weekday, 0, 59)
    ensures Compiled(Join([Written(minute), Written(hour), Written(day), Written(month), Written(weekday)], ' '))
      == Some(Schedule(Listed(minute), Listed(hour), Listed(day), Listed(month), Listed(weekday)))
  {
    hide Join, Written, Listed, AllFit, Compiled, ReadsAs;
    FieldOfWritten(minute, 0, 59);
    FieldOfWritten(hour, 0, 23);
    FieldOfWritten(day, 1, 31);
    FieldOfWritten(month, 1, 12);
    FieldOfWritten(weekday, 0, 6);
    CompiledOfWords([Written(minute), Written(hour), Written(day), Written(month), Written(weekday)],
                    Listed(minute), Listed(hour), Listed(day), Listed(month), Listed(weekday));
  }

  /** A single word that parseField reads as the list. */
  predicate ReadsAs(w: string, min: int, max: int, list: seq<int>)
    requires 0 <= min <= max <= 59
  {
    IsWord(w) && FieldList(w, min, max) == Some(list)
  }

  lemma CompiledOfWords(words: seq<string>, minute: seq<int>, hour: seq<int>, day: seq<int>, month: seq<int>,
      weekday: seq<int>)
    requires |words| == 5
    requires ReadsAs(words[0], 0, 59, minute) && ReadsAs(words[1], 0, 23, hour) && ReadsAs(words[2], 1, 31, day)
    requires ReadsAs(words[3], 1, 12, month) && ReadsAs(words[4], 0, 6, weekday)
    ensures Compiled(Join(words, ' ')) == Some(Schedule(minute, hour, day, month, weekday))
  {
    hide Join, FieldList, Fields, IsWord;
    FieldsOfWords(words);
  }

  lemma FieldOfWritten(rs: seq<Range>, min: int, max: int)
    requires 0 <= min <= max <= 59 && rs != [] && AllFit(rs, min, max) && AllFit(rs, 0, 59)
    ensures ReadsAs(Written(rs), min, max, Listed(rs))
  {
    hide Join, Texts, ReadField, Listed, IsWord;
    ReadFieldOfTexts(rs, min, max);
    FieldIsWord(rs);
  }

  /** The last step of 59-59/9223372036854775807 wraps round: the list goes on to 57, below the range. */
  lemma OverflowingStep()
    ensures var r := Range(59, 59, MAX_INT64);
      && ReadField(Written([r]), 0, 59) == Some([r])
      && Visited(59, 59, MAX_INT64)[..3] == [59, MIN_INT64 + 58, 57]
  {
    hide ReadField, Visited, Text;
    ReadFieldOfTexts([Range(59, 59, MAX_INT64)], 0, 59);
    VisitsOne(57);
    VisitsOne(MIN_INT64 + 58);
    VisitsOne(59);
  }

  lemma VisitsOne(v: int)
    requires LoopValue(v, MAX_INT64) && v <= 59
    ensures LoopValue(Wrap64(v + MAX_INT64), MAX_INT64)
    ensures Visited(v, 59, MAX_INT64) == [v] + Visited(Wrap64(v + MAX_INT64), 59, MAX_INT64)
  {
  }
}
