/** The data behind the two monthly charts (src/components/MonthlyCharts.js):
    a bar series with one bucket of income and expense per day of the month,
    sorted by day, and a pie series of expense totals per category, coloured
    from a fixed eight-colour palette. */
module MonthlyCharts {
  import opened Records
  import opened Seqs
  import opened Tally
  import MonthlySummary

  // ---- `date.split('-')[2]` ----

  /** `s.split('-')`: the pieces between dashes, empty pieces included. */
  function SplitDash(s: string): (parts: seq<string>)
    ensures |parts| >= 1
  {
    if s == [] then [""]
    else
      var rest := SplitDash(s[1..]);
      if s[0] == '-' then [""] + rest else [[s[0]] + rest[0]] + rest[1..]
  }

  /** `parts.join('-')`. */
  function JoinDash(parts: seq<string>): string
  {
    if parts == [] then ""
    else if |parts| == 1 then parts[0]
    else parts[0] + "-" + JoinDash(parts[1..])
  }

  ghost predicate NoDash(s: string)
  {
    forall i :: 0 <= i < |s| ==> s[i] != '-'
  }

  /** Splitting loses nothing: joining the pieces gives the text back, and no
      piece holds a dash. */
  lemma {:induction false} SplitJoin(s: string)
    ensures JoinDash(SplitDash(s)) == s
    ensures forall k :: 0 <= k < |SplitDash(s)| ==> NoDash(SplitDash(s)[k])
  {
    if s != [] {
      var rest := SplitDash(s[1..]);
      SplitJoin(s[1..]);
      if s[0] == '-' {
        assert SplitDash(s) == [""] + rest;
        assert ([""] + rest)[1..] == rest;
        assert s == [s[0]] + s[1..];
      } else {
        var parts := [[s[0]] + rest[0]] + rest[1..];
        assert parts[1..] == rest[1..];
        if |rest| == 1 {
          assert s == [s[0]] + rest[0];
        } else {
          assert rest == [rest[0]] + rest[1..];
          assert JoinDash(rest) == rest[0] + "-" + JoinDash(rest[1..]);
          assert s == [s[0]] + s[1..];
        }
        forall k | 0 <= k < |parts|
          ensures NoDash(parts[k])
        {
          if k == 0 {
            assert NoDash(rest[0]);
          } else {
            assert parts[k] == rest[k];
          }
        }
      }
    }
  }

  /** A dash-free piece followed by a dash splits off as the first piece. */
  lemma {:induction false} SplitPrefix(a: string, b: string)
    requires NoDash(a)
    ensures SplitDash(a + "-" + b) == [a] + SplitDash(b)
  {
    if a == [] {
      assert a + "-" + b == ['-'] + b;
      assert (['-'] + b)[1..] == b;
    } else {
      SplitPrefix(a[1..], b);
      assert (a + "-" + b)[1..] == a[1..] + "-" + b;
      assert [a[0]] + a[1..] == a;
    }
  }

  lemma {:induction false} SplitNoDash(a: string)
    requires NoDash(a)
    ensures SplitDash(a) == [a]
  {
    if a != [] {
      SplitNoDash(a[1..]);
      assert [a[0]] + a[1..] == a;
    }
  }

  /** The day key of a record: the third dash-separated piece of its date.
      When there is none JavaScript indexes the object with `undefined`,
      whose key is the text "undefined". */
  function DayKey(date: string): string
  {
    var parts := SplitDash(date);
    if |parts| > 2 then parts[2] else "undefined"
  }

  /** An ISO date's day key is its day field, and its month is its
      year-month prefix. */
  lemma IsoDateKeys(year: string, month: string, day: string)
    requires |year| == 4 && |month| == 2
    requires NoDash(year) && NoDash(month) && NoDash(day)
    ensures DayKey(year + "-" + month + "-" + day) == day
    ensures MonthOf(year + "-" + month + "-" + day) == year + "-" + month
  {
    var date := year + "-" + month + "-" + day;
    assert date == year + "-" + (month + "-" + day);
    SplitPrefix(year, month + "-" + day);
    SplitPrefix(month, day);
    SplitNoDash(day);
    assert date[..7] == year + "-" + month;
  }

  // ---- `parseInt(day)` ----

  predicate IsDigit(c: char)
  {
    '0' as int <= c as int <= '9' as int
  }

  function DigitValue(c: char): (d: int)
    requires IsDigit(c)
    ensures 0 <= d <= 9
  {
    c as int - '0' as int
  }

  /** How many characters at the front of `s` are decimal digits. */
  function LeadingDigits(s: string): (n: nat)
    ensures n <= |s|
    ensures forall i :: 0 <= i < n ==> IsDigit(s[i])
    ensures n < |s| ==> !IsDigit(s[n])
  {
    if s == [] || !IsDigit(s[0]) then 0 else 1 + LeadingDigits(s[1..])
  }

  /** The decimal value of a string of digits. */
  function DigitsValue(s: string): nat
    requires forall i :: 0 <= i < |s| ==> IsDigit(s[i])
  {
    if s == [] then 0
    else 10 * DigitsValue(s[..|s| - 1]) + DigitValue(s[|s| - 1])
  }

  /** `parseInt(key)` on the leading digits of `key`. */
  function ParseDay(key: string): int
  {
    DigitsValue(key[..LeadingDigits(key)])
  }

  /** A two-digit day field, as ISO dates carry. */
  ghost predicate TwoDigitKey(key: string)
  {
    |key| == 2 && IsDigit(key[0]) && IsDigit(key[1])
  }

  /** Distinct two-digit fields parse to distinct days. */
  lemma ParseDayInjective(a: string, b: string)
    requires TwoDigitKey(a) && TwoDigitKey(b)
    requires ParseDay(a) == ParseDay(b)
    ensures a == b
  {
    assert LeadingDigits(a[1..]) == 1 && LeadingDigits(a) == 2;
    assert LeadingDigits(b[1..]) == 1 && LeadingDigits(b) == 2;
    assert a[..2] == a && b[..2] == b;
    assert a[..1][..0] == [] && b[..1][..0] == [];
    assert DigitsValue(a[..1]) == DigitValue(a[0]);
    assert DigitsValue(b[..1]) == DigitValue(b[0]);
    assert ParseDay(a) == 10 * DigitValue(a[0]) + DigitValue(a[1]);
    assert ParseDay(b) == 10 * DigitValue(b[0]) + DigitValue(b[1]);
    assert DigitValue(a[0]) == DigitValue(b[0]) && DigitValue(a[1]) == DigitValue(b[1]);
    assert a[0] as int == b[0] as int && a[1] as int == b[1] as int;
    assert a == [a[0], a[1]] && b == [b[0], b[1]];
  }

  // ---- the daily fold ----

  /** One entry of `dailyData`: the object key and the value
      `{ day, income, expense }` stored under it. */
  datatype DayBucket = DayBucket(key: string, day: int, income: int, expense: int)

  /** One element of `dailyArray`. */
  datatype DayPoint = DayPoint(day: int, income: int, expense: int)

  function Keys(b: seq<DayBucket>): (ks: seq<string>)
    ensures |ks| == |b|
    ensures forall i :: 0 <= i < |b| ==> ks[i] == b[i].key
  {
    seq(|b|, i requires 0 <= i < |b| => b[i].key)
  }

  /** The `if/else`: income is credited as income, every other type as
      expense. */
  function Credit(b: DayBucket, e: Expense): DayBucket
  {
    if IsIncome(e) then b.(income := b.income + e.amount)
    else b.(expense := b.expense + e.amount)
  }

  /** One step of the `reduce`: create the day's bucket at zero when it is
      missing, then credit the record to it. */
  function AddToDay(acc: seq<DayBucket>, e: Expense): seq<DayBucket>
  {
    var key := DayKey(e.date);
    var i := IndexOf(Keys(acc), key);
    if i < |acc| then acc[i := Credit(acc[i], e)]
    else acc + [Credit(DayBucket(key, ParseDay(key), 0, 0), e)]
  }

  /** `dailyData`, in insertion order. */
  function Buckets(records: seq<Expense>): seq<DayBucket>
  {
    if records == [] then []
    else AddToDay(Buckets(records[..|records| - 1]), records[|records| - 1])
  }

  function BucketDay(b: DayBucket): int
  {
    b.day
  }

  function BucketIncome(b: DayBucket): int
  {
    b.income
  }

  function BucketExpense(b: DayBucket): int
  {
    b.expense
  }

  /** The `Object.values` projection, dropping the keys. */
  function Points(b: seq<DayBucket>): (ps: seq<DayPoint>)
    ensures |ps| == |b|
    ensures forall i :: 0 <= i < |b| ==> ps[i] == DayPoint(b[i].day, b[i].income, b[i].expense)
  {
    if b == [] then [] else Points(b[..|b| - 1]) + [DayPoint(b[|b| - 1].day, b[|b| - 1].income, b[|b| - 1].expense)]
  }

  function PointIncome(p: DayPoint): int
  {
    p.income
  }

  function PointExpense(p: DayPoint): int
  {
    p.expense
  }

  /** `dailyArray`: the buckets sorted by `(a, b) => a.day - b.day`. */
  function DailySeries(records: seq<Expense>): seq<DayPoint>
  {
    Points(SortBy(Buckets(records), BucketDay))
  }

  /** What the daily bars count as expense: every record that is not income. */
  function DailyExpenseTotal(records: seq<Expense>): int
  {
    SumOf(Filter(records, NotIncome), Amount)
  }

  /** The buckets have distinct keys, and every bucket's day is its key
      parsed. */
  ghost predicate BucketsWellFormed(b: seq<DayBucket>)
  {
    && Distinct(Keys(b))
    && (forall i :: 0 <= i < |b| ==> b[i].day == ParseDay(b[i].key))
  }

  /** One fold step keeps the keys distinct and each bucket's day its key
      parsed, appending the day key when it is new. */
  lemma AddToDayKeys(acc: seq<DayBucket>, e: Expense)
    requires BucketsWellFormed(acc)
    ensures Keys(AddToDay(acc, e))
         == if DayKey(e.date) in Keys(acc) then Keys(acc) else Keys(acc) + [DayKey(e.date)]
    ensures BucketsWellFormed(AddToDay(acc, e))
  {
    var r := AddToDay(acc, e);
    if IndexOf(Keys(acc), DayKey(e.date)) < |acc| {
      assert Keys(r) == Keys(acc);
    } else {
      assert Keys(r) == Keys(acc) + [DayKey(e.date)];
    }
  }

  /** The income accumulated under day key `key`, or 0 without a bucket. */
  function IncomeOf(b: seq<DayBucket>, key: string): int
  {
    var i := IndexOf(Keys(b), key);
    if i < |b| then b[i].income else 0
  }

  /** The expense accumulated under day key `key`, or 0 without a bucket. */
  function ExpenseOf(b: seq<DayBucket>, key: string): int
  {
    var i := IndexOf(Keys(b), key);
    if i < |b| then b[i].expense else 0
  }

  /** The income records of day key `key`. */
  function IncomeOnDay(key: string): Expense -> bool
  {
    (e: Expense) => DayKey(e.date) == key && IsIncome(e)
  }

  /** The records of any other type on day key `key`. */
  function ExpenseOnDay(key: string): Expense -> bool
  {
    (e: Expense) => DayKey(e.date) == key && !IsIncome(e)
  }

  /** One fold step credits the amount to the bucket of the record's own day
      key, as income for an income record and as expense for any other;
      every other day's bucket keeps its values. */
  lemma AddToDayValue(acc: seq<DayBucket>, e: Expense, k: string)
    ensures IncomeOf(AddToDay(acc, e), k)
         == IncomeOf(acc, k) + (if k == DayKey(e.date) && IsIncome(e) then e.amount else 0)
    ensures ExpenseOf(AddToDay(acc, e), k)
         == ExpenseOf(acc, k) + (if k == DayKey(e.date) && !IsIncome(e) then e.amount else 0)
  {
    var ks := Keys(acc);
    var key := DayKey(e.date);
    var r := AddToDay(acc, e);
    if IndexOf(ks, key) < |acc| {
      assert Keys(r) == ks;
    } else {
      assert Keys(r) == ks + [key];
      IndexOfPrefix(ks, [key], k);
    }
  }

  /** One fold step credits the amount to income for an income record and
      to expense for any other, in the bucket of the record's day and in no
      other. */
  lemma AddToDaySums(acc: seq<DayBucket>, e: Expense)
    ensures SumOf(AddToDay(acc, e), BucketIncome) == SumOf(acc, BucketIncome) + (if IsIncome(e) then e.amount else 0)
    ensures SumOf(AddToDay(acc, e), BucketExpense) == SumOf(acc, BucketExpense) + (if IsIncome(e) then 0 else e.amount)
    ensures forall k ::
      IncomeOf(AddToDay(acc, e), k) == IncomeOf(acc, k) + (if k == DayKey(e.date) && IsIncome(e) then e.amount else 0)
    ensures forall k ::
      ExpenseOf(AddToDay(acc, e), k) == ExpenseOf(acc, k) + (if k == DayKey(e.date) && !IsIncome(e) then e.amount else 0)
  {
    forall k {
      AddToDayValue(acc, e, k);
    }
    var key := DayKey(e.date);
    var i := IndexOf(Keys(acc), key);
    if i < |acc| {
      SumOfUpdate(acc, i, Credit(acc[i], e), BucketIncome);
      SumOfUpdate(acc, i, Credit(acc[i], e), BucketExpense);
    } else {
      var nb := Credit(DayBucket(key, ParseDay(key), 0, 0), e);
      SumOfAppend(acc, [nb], BucketIncome);
      SumOfAppend(acc, [nb], BucketExpense);
      assert [nb][..0] == [];
    }
  }

  /** The records' day keys in first-occurrence order, without repetition:
      an independent account of the fold's key order. */
  function FirstDayKeys(records: seq<Expense>): seq<string>
  {
    if records == [] then []
    else
      var init := FirstDayKeys(records[..|records| - 1]);
      var k := DayKey(records[|records| - 1].date);
      if k in init then init else init + [k]
  }

  /** The buckets' keys are the records' day keys, each once, in the order
      first met, and each bucket holds its key parsed. */
  lemma {:induction false} BucketsKeys(records: seq<Expense>)
    ensures Keys(Buckets(records)) == FirstDayKeys(records)
    ensures BucketsWellFormed(Buckets(records))
  {
    if records != [] {
      var n := |records| - 1;
      BucketsKeys(records[..n]);
      AddToDayKeys(Buckets(records[..n]), records[n]);
    }
  }

  /** A day key is listed exactly when some record carries it. */
  lemma {:induction false} FirstDayKeysMembers(records: seq<Expense>, key: string)
    ensures key in FirstDayKeys(records) <==> exists j :: 0 <= j < |records| && DayKey(records[j].date) == key
  {
    if records != [] {
      var init := records[..|records| - 1];
      FirstDayKeysMembers(init, key);
      if exists j :: 0 <= j < |init| && DayKey(init[j].date) == key {
        var j :| 0 <= j < |init| && DayKey(init[j].date) == key;
        assert DayKey(records[j].date) == key;
      }
      if exists j :: 0 <= j < |records| && DayKey(records[j].date) == key {
        var j :| 0 <= j < |records| && DayKey(records[j].date) == key;
        if j < |init| {
          assert DayKey(init[j].date) == key;
        }
      }
    }
  }

  /** A bucket keyed `key` exists exactly when some record has that day key. */
  lemma BucketHasKey(records: seq<Expense>, key: string)
    ensures key in Keys(Buckets(records)) <==> exists j :: 0 <= j < |records| && DayKey(records[j].date) == key
  {
    BucketsKeys(records);
    FirstDayKeysMembers(records, key);
  }

  /** The bars add up: income to the income records, expense to all the
      others. */
  lemma {:induction false} BucketsSums(records: seq<Expense>)
    ensures SumOf(Buckets(records), BucketIncome) == MonthlySummary.IncomeTotal(records)
    ensures SumOf(Buckets(records), BucketExpense) == DailyExpenseTotal(records)
  {
    if records != [] {
      var n := |records| - 1;
      var init := records[..n];
      var last := records[n];
      BucketsSums(init);
      AddToDaySums(Buckets(init), last);
      assert Buckets(records) == AddToDay(Buckets(init), last);
      assert Filter(records, IsIncome) == if IsIncome(last) then Filter(init, IsIncome) + [last] else Filter(init, IsIncome);
      assert Filter(records, NotIncome) == if IsIncome(last) then Filter(init, NotIncome) else Filter(init, NotIncome) + [last];
    }
  }

  /** Each day's bucket holds the sum of that day's income records as
      income and the sum of its other records as expense. */
  lemma {:induction false} BucketsValue(records: seq<Expense>, k: string)
    ensures IncomeOf(Buckets(records), k) == SumOf(Filter(records, IncomeOnDay(k)), Amount)
    ensures ExpenseOf(Buckets(records), k) == SumOf(Filter(records, ExpenseOnDay(k)), Amount)
  {
    if records != [] {
      var n := |records| - 1;
      var init := records[..n];
      var last := records[n];
      BucketsValue(init, k);
      AddToDayValue(Buckets(init), last, k);
      assert Buckets(records) == AddToDay(Buckets(init), last);
      SumOfFilterLast(records, IncomeOnDay(k), Amount);
      SumOfFilterLast(records, ExpenseOnDay(k), Amount);
    }
  }

  lemma {:induction false} PointsSums(b: seq<DayBucket>)
    ensures SumOf(Points(b), PointIncome) == SumOf(b, BucketIncome)
    ensures SumOf(Points(b), PointExpense) == SumOf(b, BucketExpense)
  {
    if b != [] {
      var n := |b| - 1;
      PointsSums(b[..n]);
      assert Points(b)[..n] == Points(b[..n]);
    }
  }

  /** The bar of day key `key`: its day parsed from the key, the sum of the
      day's income records and the sum of the day's other records. */
  function SeriesPoint(records: seq<Expense>, key: string): DayPoint
  {
    DayPoint(ParseDay(key), SumOf(Filter(records, IncomeOnDay(key)), Amount),
             SumOf(Filter(records, ExpenseOnDay(key)), Amount))
  }

  /** Each bucket of the fold is the bar of its own key. */
  lemma BucketPoint(records: seq<Expense>, m: nat)
    requires m < |Buckets(records)|
    ensures var b := Buckets(records)[m];
      DayPoint(b.day, b.income, b.expense) == SeriesPoint(records, b.key)
  {
    var b := Buckets(records);
    BucketsKeys(records);
    BucketsValue(records, b[m].key);
    assert Keys(b)[m] == b[m].key;
    assert IndexOf(Keys(b), b[m].key) == m;
  }

  /** The bars of the records' days. */
  function DayBars(records: seq<Expense>): set<DayPoint>
  {
    set j | 0 <= j < |records| :: SeriesPoint(records, DayKey(records[j].date))
  }

  /** Every point of `dailyArray` is the bar of the day of some record. */
  lemma DailySeriesFromRecords(records: seq<Expense>, i: nat)
    requires i < |DailySeries(records)|
    ensures DailySeries(records)[i] in DayBars(records)
  {
    var b := Buckets(records);
    var sorted := SortBy(b, BucketDay);
    SortByFacts(b, BucketDay);
    assert sorted[i] in multiset(b);
    var m :| 0 <= m < |b| && b[m] == sorted[i];
    BucketPoint(records, m);
    assert Keys(b)[m] == b[m].key;
    BucketHasKey(records, b[m].key);
    var j :| 0 <= j < |records| && DayKey(records[j].date) == b[m].key;
    assert DailySeries(records)[i] == SeriesPoint(records, DayKey(records[j].date));
  }

  /** Every record's day has its bar in `dailyArray`. */
  lemma DailySeriesCoversRecords(records: seq<Expense>, j: nat)
    requires j < |records|
    ensures SeriesPoint(records, DayKey(records[j].date)) in DailySeries(records)
  {
    var b := Buckets(records);
    var sorted := SortBy(b, BucketDay);
    var key := DayKey(records[j].date);
    SortByFacts(b, BucketDay);
    BucketHasKey(records, key);
    var m := IndexOf(Keys(b), key);
    assert b[m].key == key;
    BucketPoint(records, m);
    assert b[m] in multiset(sorted);
    var i :| 0 <= i < |sorted| && sorted[i] == b[m];
    assert DailySeries(records)[i] == SeriesPoint(records, key);
  }

  /** The points of `dailyArray` are exactly the bars of the records' days,
      each holding its day's income sum and its other sum. */
  lemma DailySeriesValues(records: seq<Expense>)
    ensures forall i :: 0 <= i < |DailySeries(records)| ==> DailySeries(records)[i] in DayBars(records)
    ensures forall p :: p in DayBars(records) ==> p in DailySeries(records)
  {
    forall i | 0 <= i < |DailySeries(records)|
      ensures DailySeries(records)[i] in DayBars(records)
    {
      DailySeriesFromRecords(records, i);
    }
    forall p | p in DayBars(records)
      ensures p in DailySeries(records)
    {
      var j :| 0 <= j < |records| && p == SeriesPoint(records, DayKey(records[j].date));
      DailySeriesCoversRecords(records, j);
    }
  }

  /** `dailyArray` is ordered by day and has one point per bucket; its
      points are exactly the bars of the records' days, and they total the
      month's income and its non-income records. */
  lemma DailySeriesFacts(records: seq<Expense>)
    ensures |DailySeries(records)| == |Buckets(records)|
    ensures forall i, j :: 0 <= i < j < |DailySeries(records)| ==>
      DailySeries(records)[i].day <= DailySeries(records)[j].day
    ensures forall i :: 0 <= i < |DailySeries(records)| ==> DailySeries(records)[i] in DayBars(records)
    ensures forall p :: p in DayBars(records) ==> p in DailySeries(records)
    ensures SumOf(DailySeries(records), PointIncome) == MonthlySummary.IncomeTotal(records)
    ensures SumOf(DailySeries(records), PointExpense) == DailyExpenseTotal(records)
  {
    DailySeriesValues(records);
    var b := Buckets(records);
    var sorted := SortBy(b, BucketDay);
    SortByFacts(b, BucketDay);
    BucketsSums(records);
    SortBySum(b, BucketDay, BucketIncome);
    SortBySum(b, BucketDay, BucketExpense);
    PointsSums(sorted);
    forall i, j | 0 <= i < j < |DailySeries(records)|
      ensures DailySeries(records)[i].day <= DailySeries(records)[j].day
    {
      assert BucketDay(sorted[i]) <= BucketDay(sorted[j]);
    }
  }

  /** The daily expense bars count records of unknown type too: they exceed
      the expense card by exactly those records. */
  lemma {:induction false} DailyExpenseIncludesOther(records: seq<Expense>)
    ensures DailyExpenseTotal(records)
         == MonthlySummary.ExpenseTotal(records) + MonthlySummary.OtherTotal(records)
  {
    if records != [] {
      DailyExpenseIncludesOther(records[..|records| - 1]);
      SumOfFilterLast(records, NotIncome, Amount);
      SumOfFilterLast(records, IsExpense, Amount);
      SumOfFilterLast(records, IsOtherKind, Amount);
    }
  }

  /** Every day key of the month is a two-digit day field. */
  ghost predicate IsoDays(records: seq<Expense>)
  {
    forall j :: 0 <= j < |records| ==> TwoDigitKey(DayKey(records[j].date))
  }

  /** With ISO dates no day appears twice: the series is strictly ascending. */
  lemma DailySeriesStrict(records: seq<Expense>)
    requires IsoDays(records)
    ensures forall i, j :: 0 <= i < j < |DailySeries(records)| ==>
      DailySeries(records)[i].day < DailySeries(records)[j].day
  {
    var b := Buckets(records);
    var sorted := SortBy(b, BucketDay);
    SortByFacts(b, BucketDay);
    BucketsKeys(records);
    assert DistinctBy(b, BucketDay) by {
      forall p, q | 0 <= p < q < |b|
        ensures BucketDay(b[p]) != BucketDay(b[q])
      {
        assert Keys(b)[p] != Keys(b)[q];
        assert b[p].key in Keys(b) && b[q].key in Keys(b);
        BucketHasKey(records, b[p].key);
        BucketHasKey(records, b[q].key);
        var jp :| 0 <= jp < |records| && DayKey(records[jp].date) == b[p].key;
        var jq :| 0 <= jq < |records| && DayKey(records[jq].date) == b[q].key;
        if b[p].day == b[q].day {
          ParseDayInjective(b[p].key, b[q].key);
        }
      }
    }
    PermutationKeepsDistinctBy(sorted, b, BucketDay);
    forall i, j | 0 <= i < j < |DailySeries(records)|
      ensures DailySeries(records)[i].day < DailySeries(records)[j].day
    {
      assert BucketDay(sorted[i]) <= BucketDay(sorted[j]);
      assert BucketDay(sorted[i]) != BucketDay(sorted[j]);
    }
  }

  // ---- the pie ----

  /** One `{ name, value }` of `pieData`. */
  datatype PieSlice = PieSlice(name: string, value: int)

  function Slices(t: seq<CategoryTotal>): (ps: seq<PieSlice>)
    ensures |ps| == |t|
    ensures forall i :: 0 <= i < |t| ==> ps[i] == PieSlice(t[i].category, t[i].amount)
  {
    seq(|t|, i requires 0 <= i < |t| => PieSlice(t[i].category, t[i].amount))
  }

  /** `pieData`: the per-category totals of the expense-type records, in
      first-encountered order, with no filter on the sign of the value. */
  function PieData(records: seq<Expense>): seq<PieSlice>
  {
    Slices(MonthlySummary.CategoryTotals(records))
  }

  function SliceValue(p: PieSlice): int
  {
    p.value
  }

  lemma {:induction false} SlicesSum(t: seq<CategoryTotal>)
    ensures SumOf(Slices(t), SliceValue) == SumOf(t, TotalAmount)
  {
    if t != [] {
      var n := |t| - 1;
      SlicesSum(t[..n]);
      assert Slices(t)[..n] == Slices(t[..n]);
    }
  }

  /** One slice per distinct category among the expense-type records, each
      holding that category's sum; the slices add up to the expense card,
      and fall short of the daily expense bars by the records of unknown
      type. */
  lemma PieDataFacts(records: seq<Expense>, c: string)
    ensures Distinct(Names(MonthlySummary.CategoryTotals(records)))
    ensures (exists i :: 0 <= i < |PieData(records)| && PieData(records)[i].name == c)
        <==> c in Names(MonthlySummary.CategoryTotals(records))
    ensures c in Names(MonthlySummary.CategoryTotals(records)) ==>
      exists i :: 0 <= i < |PieData(records)| && PieData(records)[i] ==
        PieSlice(c, SumOf(Filter(Filter(records, IsExpense), InCategory(c)), Amount))
    ensures SumOf(PieData(records), SliceValue) == MonthlySummary.ExpenseTotal(records)
    ensures DailyExpenseTotal(records) - SumOf(PieData(records), SliceValue)
         == MonthlySummary.OtherTotal(records)
  {
    var ex := Filter(records, IsExpense);
    var t := MonthlySummary.CategoryTotals(records);
    TotalsNames(ex);
    TotalsSum(ex);
    TotalsValue(ex, c);
    SlicesSum(t);
    DailyExpenseIncludesOther(records);
    if c in Names(t) {
      var i := IndexOf(Names(t), c);
      assert PieData(records)[i] == PieSlice(c, ValueOf(t, c));
    }
  }

  /** No records, no bars and no slices. */
  lemma EmptyCharts()
    ensures DailySeries([]) == [] && PieData([]) == []
  {
  }

  // ---- colours ----

  /** `COLORS`. */
  const Palette: seq<string> :=
    ["#667eea", "#764ba2", "#f093fb", "#4facfe", "#00f2fe", "#43e97b", "#fa709a", "#fee140"]

  /** `COLORS[index % COLORS.length]`: slice `index`'s colour, always one of
      the palette's. */
  function SliceColour(index: nat): (c: string)
    ensures c in Palette
  {
    Palette[index % |Palette|]
  }

  /** The colours repeat every eight slices. */
  lemma SliceColourPeriodic(index: nat)
    ensures SliceColour(index + |Palette|) == SliceColour(index)
  {
    assert |Palette| == 8;
    assert (index + 8) % 8 == index % 8;
  }
}
