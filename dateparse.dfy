/** `to_date`: coercing a report's date cell to a calendar date by trying three
    fixed `strptime` formats in order, then a general parser. */
module DateParse {

  import opened Wrappers
  import opened Text
  import opened Calendar
  import opened Cells

  /** The three fixed formats: `%Y/%m/%d`, `%d-%m-%Y` and `%m/%d/%Y`. */
  datatype Format = YearMonthDay | DayMonthYear | MonthDayYear

  function Separator(f: Format): char {
    if f == DayMonthYear then '-' else '/'
  }

  /** `%Y`: exactly four digits. */
  function YearField(p: string): (r: Option<int>)
    ensures r.Some? ==> |p| == 4 && AllDigits(p)
  {
    if |p| == 4 && AllDigits(p) then Some(DigitsValue(p)) else None
  }

  /** `%m`: one or two digits naming a month. */
  function MonthField(p: string): (r: Option<int>)
    ensures r.Some? ==> 1 <= |p| <= 2 && 1 <= r.value <= 12
  {
    if 1 <= |p| <= 2 && AllDigits(p) && 1 <= DigitsValue(p) <= 12 then Some(DigitsValue(p)) else None
  }

  /** `%d`: one or two digits from 1 to 31, or a space followed by a digit from 1 to 9. */
  function DayField(p: string): (r: Option<int>)
    ensures r.Some? ==> 1 <= |p| <= 2 && 1 <= r.value <= 31
  {
    if 1 <= |p| <= 2 && AllDigits(p) && 1 <= DigitsValue(p) <= 31 then Some(DigitsValue(p))
    else if |p| == 2 && p[0] == ' ' && '1' <= p[1] <= '9' then
      assert DigitsValue(p[1..]) == p[1] as int - '0' as int by { assert p[1..][..0] == []; }
      Some(DigitsValue(p[1..]))
    else None
  }

  /** `datetime.strptime(s, fmt).date()`, None where it raises: the whole string must
      match the format and the fields must name a real date. */
  function Strptime(s: string, f: Format): (r: Option<Date>)
    ensures r.Some? ==> |Split(s, Separator(f))| == 3
    ensures r.Some? ==> forall part :: part in Split(s, Separator(f)) ==> 1 <= |part| <= 4
  {
    var parts := Split(s, Separator(f));
    if |parts| != 3 then None
    else
      var y := YearField(if f == YearMonthDay then parts[0] else parts[2]);
      var m := MonthField(if f == MonthDayYear then parts[0] else parts[1]);
      var d := DayField(match f case YearMonthDay => parts[2] case DayMonthYear => parts[0] case MonthDayYear => parts[1]);
      if y.Some? && m.Some? && d.Some? && Valid(CalendarDate(y.value, m.value, d.value))
      then Some(CalendarDate(y.value, m.value, d.value))
      else None
  }

  /** The text `to_date` works on: `str(x).strip()`. */
  function Cleaned(x: Cell, env: Env): string {
    Strip(CellText(x, env))
  }

  /** Where `s.split(sep)[2]` is evaluated outside any `try`: a `-` anywhere, or a `/`
      when the `-` test did not already settle the result. */
  predicate RaisesOn(s: string) {
    || ('-' in s && |Split(s, '-')| < 3)
    || ('/' in s && |Split(s, '/')| < 3)
  }

  /** The first attempt: `%Y/%m/%d` when the text before the first `/` has four characters. */
  function TryYearFirst(s: string): (r: Option<Date>)
    ensures r.Some? ==> var p := Split(s, '/');
              |p| == 3 && YearField(p[0]) == Some(r.value.year) && MonthField(p[1]) == Some(r.value.month)
              && DayField(p[2]) == Some(r.value.day)
    ensures '-' in s ==> r.None?
  {
    RejectsOtherSeparator(s, YearMonthDay);
    if '/' in s && |Split(s, '/')[0]| == 4 then Strptime(s, YearMonthDay) else None
  }

  /** The second attempt: `%d-%m-%Y` when the third `-` part has four characters and the
      first at most two. */
  function TryDayFirst(s: string): (r: Option<Date>)
    requires '-' in s ==> |Split(s, '-')| >= 3
    ensures r.Some? ==> var p := Split(s, '-');
              |p| == 3 && DayField(p[0]) == Some(r.value.day) && MonthField(p[1]) == Some(r.value.month)
              && YearField(p[2]) == Some(r.value.year)
    ensures '/' in s ==> r.None?
  {
    RejectsOtherSeparator(s, DayMonthYear);
    var dash := Split(s, '-');
    if '-' in s && |dash[2]| == 4 && |dash[0]| <= 2 then Strptime(s, DayMonthYear) else None
  }

  /** The third attempt: `%m/%d/%Y` when the third `/` part has four characters. */
  function TryMonthFirst(s: string): (r: Option<Date>)
    requires '/' in s ==> |Split(s, '/')| >= 3
    ensures r.Some? ==> var p := Split(s, '/');
              |p| == 3 && MonthField(p[0]) == Some(r.value.month) && DayField(p[1]) == Some(r.value.day)
              && YearField(p[2]) == Some(r.value.year)
    ensures '-' in s ==> r.None?
  {
    RejectsOtherSeparator(s, MonthDayYear);
    if '/' in s && |Split(s, '/')[2]| == 4 then Strptime(s, MonthDayYear) else None
  }

  /** The chain of attempts on the stripped text; the first success wins. */
  function ParseText(s: string, env: Env): (r: Result<Option<Date>, Error>)
    ensures r.Err? ==> r.error == IndexError && RaisesOn(s)
  {
    var ymd := TryYearFirst(s);
    if ymd.Some? then Ok(ymd)
    else if '-' in s && |Split(s, '-')| < 3 then Err(IndexError)
    else
      var dmy := TryDayFirst(s);
      if dmy.Some? then Ok(dmy)
      else if '/' in s && |Split(s, '/')| < 3 then Err(IndexError)
      else
        var mdy := TryMonthFirst(s);
        if mdy.Some? then Ok(mdy) else Ok(env.fallback(s))
  }

  /** `to_date(x)`: None for a missing cell, otherwise the chain on `str(x).strip()`. */
  function ToDate(x: Cell, env: Env): (r: Result<Option<Date>, Error>)
    ensures x.Null? ==> r == Ok(None)
    ensures r.Err? ==> r.error == IndexError && RaisesOn(Cleaned(x, env))
  {
    if x.Null? then Ok(None) else ParseText(Cleaned(x, env), env)
  }

  lemma {:induction false} JoinContains(parts: seq<string>, sep: char, c: char)
    requires |parts| >= 1 && c != sep && c in Join(parts, sep)
    ensures exists i :: 0 <= i < |parts| && c in parts[i]
  {
    if |parts| > 1 {
      if c !in parts[0] {
        JoinContains(parts[1..], sep, c);
        var i :| 0 <= i < |parts[1..]| && c in parts[1..][i];
        assert c in parts[i + 1];
      }
    }
  }

  /** A string holding a `-` never parses as `%Y/%m/%d` or `%m/%d/%Y`. */
  /** A format never accepts the other format's separator. */
  lemma RejectsOtherSeparator(s: string, f: Format)
    ensures f != DayMonthYear && '-' in s ==> Strptime(s, f).None?
    ensures f == DayMonthYear && '/' in s ==> Strptime(s, f).None?
  {
    if f != DayMonthYear && '-' in s {
      SlashFormatsRejectDash(s, f);
    } else if f == DayMonthYear && '/' in s {
      DashFormatRejectsSlash(s);
    }
  }

  lemma SlashFormatsRejectDash(s: string, f: Format)
    requires f != DayMonthYear && '-' in s
    ensures Strptime(s, f).None?
  {
    var parts := Split(s, '/');
    if |parts| == 3 {
      SplitJoin(s, '/');
      JoinContains(parts, '/', '-');
      var i :| 0 <= i < 3 && '-' in parts[i];
      FieldsRejectSeparator(s, f, i, '-');
    }
  }

  /** A string holding a `/` never parses as `%d-%m-%Y`. */
  lemma DashFormatRejectsSlash(s: string)
    requires '/' in s
    ensures Strptime(s, DayMonthYear).None?
  {
    var parts := Split(s, '-');
    if |parts| == 3 {
      SplitJoin(s, '-');
      JoinContains(parts, '-', '/');
      var i :| 0 <= i < 3 && '/' in parts[i];
      FieldsRejectSeparator(s, DayMonthYear, i, '/');
    }
  }

  /** A date field holds only digits and spaces. */
  lemma FieldsRejectSeparator(s: string, f: Format, i: int, c: char)
    requires |Split(s, Separator(f))| == 3 && 0 <= i < 3
    requires c in Split(s, Separator(f))[i] && !IsDigit(c) && c != ' '
    ensures Strptime(s, f).None?
  {
    var parts := Split(s, Separator(f));
    var k :| 0 <= k < |parts[i]| && parts[i][k] == c;
    assert !AllDigits(parts[i]);
    assert YearField(parts[i]).None? && MonthField(parts[i]).None? && DayField(parts[i]).None?;
  }

  /** On the stripped text, the exception escapes exactly where a split with fewer
      than three parts is indexed. */
  lemma ParseTextRaises(s: string, env: Env)
    ensures ParseText(s, env).Err? <==> RaisesOn(s)
  {
    if '-' in s {
      SlashFormatsRejectDash(s, YearMonthDay);
      assert TryYearFirst(s).None?;
      if '/' in s && |Split(s, '-')| >= 3 {
        DashFormatRejectsSlash(s);
        assert TryDayFirst(s).None?;
      }
    } else if '/' in s && |Split(s, '/')| < 3 {
      assert Strptime(s, YearMonthDay).None?;
      assert TryYearFirst(s).None?;
      assert TryDayFirst(s).None?;
    }
  }

  /** `to_date` raises exactly where a split with fewer than three parts is indexed. */
  lemma ToDateRaises(x: Cell, env: Env)
    requires !x.Null?
    ensures ToDate(x, env).Err? <==> RaisesOn(Cleaned(x, env))
  {
    ParseTextRaises(Cleaned(x, env), env);
  }

  lemma StripDigitsSeparated(s: string)
    requires s != [] && IsDigit(s[0]) && IsDigit(s[|s| - 1])
    ensures Strip(s) == s
  {
  }

  lemma DigitsLack(a: string, c: char)
    requires AllDigits(a) && !IsDigit(c)
    ensures c !in a
  {
  }

  /** Three digit groups joined by one separator, as `to_date` sees them. */
  lemma Joined(a: string, b: string, d: string, sep: char, env: Env)
    requires AllDigits(a) && AllDigits(b) && AllDigits(d) && |a| >= 1 && |d| >= 1
    requires sep == '/' || sep == '-'
    ensures var s := a + [sep] + b + [sep] + d;
      && Cleaned(Str(s), env) == s
      && Split(s, sep) == [a, b, d]
      && sep in s
      && (if sep == '/' then '-' else '/') !in s
  {
    JoinedStrip(a, b, d, sep, env);
    DigitsLack(a, sep);
    DigitsLack(b, sep);
    DigitsLack(d, sep);
    SplitThree(a, b, d, sep);
    JoinedMembers(a, b, d, sep);
  }

  lemma JoinedStrip(a: string, b: string, d: string, sep: char, env: Env)
    requires AllDigits(a) && AllDigits(d) && |a| >= 1 && |d| >= 1
    ensures Cleaned(Str(a + [sep] + b + [sep] + d), env) == a + [sep] + b + [sep] + d
  {
    var s := a + [sep] + b + [sep] + d;
    assert s[0] == a[0] && s[|s| - 1] == d[|d| - 1];
    StripDigitsSeparated(s);
  }

  lemma JoinedMembers(a: string, b: string, d: string, sep: char)
    requires AllDigits(a) && AllDigits(b) && AllDigits(d)
    requires sep == '/' || sep == '-'
    ensures var s := a + [sep] + b + [sep] + d;
      sep in s && (if sep == '/' then '-' else '/') !in s
  {
    var s := a + [sep] + b + [sep] + d;
    var other := if sep == '/' then '-' else '/';
    assert s[|a|] == sep;
    forall i | 0 <= i < |s|
      ensures s[i] != other
    {
      if i < |a| {
        assert s[i] == a[i];
      } else if |a| < i < |a| + 1 + |b| {
        assert s[i] == b[i - |a| - 1];
      } else if i > |a| + 1 + |b| {
        assert s[i] == d[i - |a| - |b| - 2];
      }
    }
  }

  lemma ChainToMonthFirst(s: string, env: Env)
    requires TryYearFirst(s).None? && '-' !in s && '/' in s && |Split(s, '/')| >= 3
    requires TryMonthFirst(s).Some?
    ensures ParseText(s, env) == Ok(TryMonthFirst(s))
  {
  }

  lemma ChainToDayFirst(s: string, env: Env)
    requires TryYearFirst(s).None? && '-' in s && |Split(s, '-')| >= 3
    requires TryDayFirst(s).Some?
    ensures ParseText(s, env) == Ok(TryDayFirst(s))
  {
  }

  lemma MonthFirstAttempts(a: string, b: string, y: string, env: Env)
    requires AllDigits(a) && AllDigits(b) && AllDigits(y) && 1 <= |a| <= 2 && |y| == 4
    requires MonthField(a).Some? && DayField(b).Some?
    requires Valid(CalendarDate(DigitsValue(y), DigitsValue(a), DigitsValue(b)))
    ensures var s := a + "/" + b + "/" + y;
      && Cleaned(Str(s), env) == s
      && TryYearFirst(s).None? && '-' !in s && '/' in s && |Split(s, '/')| >= 3
      && TryMonthFirst(s) == Some(CalendarDate(DigitsValue(y), DigitsValue(a), DigitsValue(b)))
  {
    var s := a + "/" + b + "/" + y;
    Joined(a, b, y, '/', env);
    var date := CalendarDate(DigitsValue(y), DigitsValue(a), DigitsValue(b));
    assert TryYearFirst(s).None? by {
      assert Split(s, '/')[0] == a;
    }
    assert TryMonthFirst(s) == Some(date) by {
      assert Split(s, '/') == [a, b, y];
      StrptimeMonthFirst(s, a, b, y);
    }
  }

  lemma StrptimeMonthFirst(s: string, a: string, b: string, y: string)
    requires Split(s, '/') == [a, b, y]
    requires MonthField(a).Some? && DayField(b).Some? && YearField(y).Some?
    requires Valid(CalendarDate(YearField(y).value, MonthField(a).value, DayField(b).value))
    ensures Strptime(s, MonthDayYear) == Some(CalendarDate(YearField(y).value, MonthField(a).value, DayField(b).value))
  {
  }

  /** `a/b/yyyy` with a one- or two-digit first part is read month first. */
  lemma SlashIsMonthFirst(a: string, b: string, y: string, env: Env)
    requires AllDigits(a) && AllDigits(b) && AllDigits(y) && 1 <= |a| <= 2 && |y| == 4
    requires MonthField(a).Some? && DayField(b).Some?
    requires Valid(CalendarDate(DigitsValue(y), DigitsValue(a), DigitsValue(b)))
    ensures ToDate(Str(a + "/" + b + "/" + y), env) == Ok(Some(CalendarDate(DigitsValue(y), DigitsValue(a), DigitsValue(b))))
  {
    MonthFirstAttempts(a, b, y, env);
    ChainToMonthFirst(a + "/" + b + "/" + y, env);
  }

  lemma DayFirstAttempts(d: string, m: string, y: string, env: Env)
    requires AllDigits(d) && AllDigits(m) && AllDigits(y) && 1 <= |d| <= 2 && |y| == 4
    requires DayField(d).Some? && MonthField(m).Some?
    requires Valid(CalendarDate(DigitsValue(y), DigitsValue(m), DigitsValue(d)))
    ensures var s := d + "-" + m + "-" + y;
      && Cleaned(Str(s), env) == s
      && TryYearFirst(s).None? && '-' in s && |Split(s, '-')| >= 3
      && TryDayFirst(s) == Some(CalendarDate(DigitsValue(y), DigitsValue(m), DigitsValue(d)))
  {
    var s := d + "-" + m + "-" + y;
    Joined(d, m, y, '-', env);
    var date := CalendarDate(DigitsValue(y), DigitsValue(m), DigitsValue(d));
    assert TryYearFirst(s).None?;
    assert TryDayFirst(s) == Some(date) by {
      assert Split(s, '-') == [d, m, y];
      StrptimeDayFirst(s, d, m, y);
    }
  }

  lemma StrptimeDayFirst(s: string, d: string, m: string, y: string)
    requires Split(s, '-') == [d, m, y]
    requires DayField(d).Some? && MonthField(m).Some? && YearField(y).Some?
    requires Valid(CalendarDate(YearField(y).value, MonthField(m).value, DayField(d).value))
    ensures Strptime(s, DayMonthYear) == Some(CalendarDate(YearField(y).value, MonthField(m).value, DayField(d).value))
  {
  }

  /** `d-m-yyyy` is read day first. */
  lemma DashIsDayFirst(d: string, m: string, y: string, env: Env)
    requires AllDigits(d) && AllDigits(m) && AllDigits(y) && 1 <= |d| <= 2 && |y| == 4
    requires DayField(d).Some? && MonthField(m).Some?
    requires Valid(CalendarDate(DigitsValue(y), DigitsValue(m), DigitsValue(d)))
    ensures ToDate(Str(d + "-" + m + "-" + y), env) == Ok(Some(CalendarDate(DigitsValue(y), DigitsValue(m), DigitsValue(d))))
  {
    DayFirstAttempts(d, m, y, env);
    ChainToDayFirst(d + "-" + m + "-" + y, env);
  }

  lemma YearFirstAttempt(y: string, m: string, d: string, env: Env)
    requires AllDigits(y) && AllDigits(m) && AllDigits(d) && |y| == 4 && |d| >= 1
    requires MonthField(m).Some? && DayField(d).Some?
    requires Valid(CalendarDate(DigitsValue(y), DigitsValue(m), DigitsValue(d)))
    ensures var s := y + "/" + m + "/" + d;
      && Cleaned(Str(s), env) == s
      && TryYearFirst(s) == Some(CalendarDate(DigitsValue(y), DigitsValue(m), DigitsValue(d)))
  {
    var s := y + "/" + m + "/" + d;
    Joined(y, m, d, '/', env);
    StrptimeYearFirst(s, y, m, d);
  }

  lemma StrptimeYearFirst(s: string, y: string, m: string, d: string)
    requires Split(s, '/') == [y, m, d]
    requires YearField(y).Some? && MonthField(m).Some? && DayField(d).Some?
    requires Valid(CalendarDate(YearField(y).value, MonthField(m).value, DayField(d).value))
    ensures TryYearFirst(s) == Some(CalendarDate(YearField(y).value, MonthField(m).value, DayField(d).value))
  {
    SplitHasSeparator(s, '/');
  }

  /** `yyyy/m/d` is read year, month, day. */
  lemma SlashWithYearFirst(y: string, m: string, d: string, env: Env)
    requires AllDigits(y) && AllDigits(m) && AllDigits(d) && |y| == 4 && |d| >= 1
    requires MonthField(m).Some? && DayField(d).Some?
    requires Valid(CalendarDate(DigitsValue(y), DigitsValue(m), DigitsValue(d)))
    ensures ToDate(Str(y + "/" + m + "/" + d), env) == Ok(Some(CalendarDate(DigitsValue(y), DigitsValue(m), DigitsValue(d))))
  {
    YearFirstAttempt(y, m, d, env);
  }

  /** The same digits read differently with the two separators: "03/04/2025" is
      the 4th of March and "03-04-2025" the 3rd of April. */
  lemma AmbiguousDates(env: Env)
    ensures ToDate(Str("03/04/2025"), env) == Ok(Some(CalendarDate(2025, 3, 4)))
    ensures ToDate(Str("03-04-2025"), env) == Ok(Some(CalendarDate(2025, 4, 3)))
    ensures ToDate(Str("2025/03/04"), env) == Ok(Some(CalendarDate(2025, 3, 4)))
  {
    MonthFirstSample(env);
    DayFirstSample(env);
    YearFirstSample(env);
  }

  lemma MonthFirstSample(env: Env)
    ensures ToDate(Str("03/04/2025"), env) == Ok(Some(CalendarDate(2025, 3, 4)))
  {
    SampleDigits();
    assert "03/04/2025" == "03" + "/" + "04" + "/" + "2025";
    SlashIsMonthFirst("03", "04", "2025", env);
  }

  lemma DayFirstSample(env: Env)
    ensures ToDate(Str("03-04-2025"), env) == Ok(Some(CalendarDate(2025, 4, 3)))
  {
    SampleDigits();
    assert "03-04-2025" == "03" + "-" + "04" + "-" + "2025";
    DashIsDayFirst("03", "04", "2025", env);
  }

  lemma YearFirstSample(env: Env)
    ensures ToDate(Str("2025/03/04"), env) == Ok(Some(CalendarDate(2025, 3, 4)))
  {
    SampleDigits();
    assert "2025/03/04" == "2025" + "/" + "03" + "/" + "04";
    SlashWithYearFirst("2025", "03", "04", env);
  }

  lemma SampleDigits()
    ensures DigitsValue("03") == 3 && DigitsValue("04") == 4 && DigitsValue("2025") == 2025
  {
    assert "03"[..1] == "0" && "04"[..1] == "0";
    assert "2025"[..3] == "202" && "202"[..2] == "20" && "20"[..1] == "2";
  }

  lemma ShortSlashText(a: string, b: string, env: Env)
    requires AllDigits(a) && AllDigits(b) && |a| >= 1 && |b| >= 1
    ensures Cleaned(Str(a + "/" + b), env) == a + "/" + b
    ensures RaisesOn(a + "/" + b)
  {
    var s := a + "/" + b;
    assert s[0] == a[0] && s[|s| - 1] == b[|b| - 1];
    StripDigitsSeparated(s);
    DigitsLack(a, '/');
    DigitsLack(b, '/');
    SplitPrefix(a, b, '/');
    SplitNoSeparator(b, '/');
    assert s[|a|] == '/';
  }

  /** A date with one `/`, such as "12/2025", makes `to_date` raise instead of
      returning None. */
  lemma ShortSlashRaises(a: string, b: string, env: Env)
    requires AllDigits(a) && AllDigits(b) && |a| >= 1 && |b| >= 1
    ensures ToDate(Str(a + "/" + b), env) == Err(IndexError)
  {
    ShortSlashText(a, b, env);
    ToDateRaises(Str(a + "/" + b), env);
  }
}
