/** Which texts the cron parser accepts, and what each of them lists. */
module CronForms {
  import opened Model
  import opened Calendar
  import opened CivilTime
  import opened CronText
  import opened CronField
  import opened CronNext
  import opened CronParse

  // ---------- numbers ----------

  /** The numerals of a two-digit number. */
  lemma TwoDigits(n: nat)
    requires n < 100
    ensures var digits := "0123456789";
      Decimal(n) == if n < 10 then [digits[n]] else [digits[n / 10], digits[n % 10]]
  {
    assert forall k :: 0 <= k < 10 ==> "0123456789"[k] == ('0' as int + k) as char;
  }

  /** Digits, leading zeros allowed, after an optional plus sign. */
  predicate IsNumber(s: string, v: int) {
    var d := if s != "" && s[0] == '+' then s[1..] else s;
    d != "" && AllDigits(d) && Digits(d) == v
  }

  lemma NumberIsPlain(s: string, v: int)
    requires IsNumber(s, v)
    ensures 0 <= v && Plain(s)
  {
    forall i | 0 <= i < |s| ensures s[i] == '+' || IsDigit(s[i]) {
      if s[0] == '+' && i > 0 {
        assert s[1..][i - 1] == s[i];
      }
    }
  }

  lemma AtoiIff(s: string, v: int)
    requires '-' !in s || 0 < v
    ensures Atoi(s) == Some(v) <==> IsNumber(s, v) && v <= MAX_INT64
  {
  }

  lemma DecimalIsNumber(n: nat)
    ensures IsNumber(Decimal(n), n)
  {
    DigitsOfDecimal(n);
    assert IsDigit(Decimal(n)[0]);
  }

  // ---------- one part ----------

  /** The base of a part: a star, a value, or a range. */
  ghost predicate BaseSays(base: string, min: int, max: int, lo: int, hi: int) {
    || (base == "*" && lo == min && hi == max)
    || (IsNumber(base, lo) && hi == lo && min <= lo <= max)
    || (exists a, b :: base == a + "-" + b && IsNumber(a, lo) && IsNumber(b, hi) && min <= lo <= hi <= max)
  }

  /** A part: a base, or a base with a step. */
  ghost predicate PartSays(part: string, min: int, max: int, r: Range) {
    || (r.step == 1 && BaseSays(part, min, max, r.lo, r.hi))
    || (exists base, n :: part == base + "/" + n && IsNumber(n, r.step) && 1 <= r.step <= MAX_INT64
                          && BaseSays(base, min, max, r.lo, r.hi))
  }

  lemma SplitPlain(s: string, c: char)
    requires c !in s
    ensures Split(s, c) == [s]
  {
  }

  lemma {:induction false} PairOfSplit(s: string, c: char)
    requires |Split(s, c)| == 2
    ensures var ends := Split(s, c); s == ends[0] + [c] + ends[1] && c !in ends[0] && c !in ends[1]
  {
    var ends := Split(s, c);
    JoinSplit(s, c);
    assert ends[1..] == [ends[1]] && ends[0] in ends && ends[1] in ends;
  }

  lemma BaseIff(base: string, min: int, max: int, lo: int, hi: int)
    requires 0 <= min <= max <= MAX_INT64
    ensures ReadBase(base, min, max) == Some((lo, hi)) <==> BaseSays(base, min, max, lo, hi)
  {
    hide Atoi, Split, IsNumber, BaseSays, ReadBase;
    if ReadBase(base, min, max) == Some((lo, hi)) {
      BaseRead(base, min, max, lo, hi);
    }
    if BaseSays(base, min, max, lo, hi) {
      BaseSaid(base, min, max, lo, hi);
    }
  }

  lemma BaseRead(base: string, min: int, max: int, lo: int, hi: int)
    requires 0 <= min <= max <= MAX_INT64 && ReadBase(base, min, max) == Some((lo, hi))
    ensures BaseSays(base, min, max, lo, hi)
  {
    hide Atoi, Split, IsNumber;
    if base != "*" {
      var ends := Split(base, '-');
      if |ends| == 1 {
        SplitAlone(base, '-');
        assert base in ends;
        AtoiIff(base, lo);
      } else {
        PairOfSplit(base, '-');
        AtoiIff(ends[0], lo);
        AtoiIff(ends[1], hi);
        assert base == ends[0] + "-" + ends[1];
      }
    }
  }

  lemma BaseSaid(base: string, min: int, max: int, lo: int, hi: int)
    requires 0 <= min <= max <= MAX_INT64 && BaseSays(base, min, max, lo, hi)
    ensures ReadBase(base, min, max) == Some((lo, hi))
  {
    hide Atoi, Split, IsNumber;
    assert '*' in "*" && '-' !in "*";
    if IsNumber(base, lo) && hi == lo && min <= lo <= max {
      NumberIsPlain(base, lo);
      SplitPlain(base, '-');
      AtoiIff(base, lo);
    } else if a, b :| base == a + "-" + b && IsNumber(a, lo) && IsNumber(b, hi) && min <= lo <= hi <= max {
      NumberIsPlain(a, lo);
      NumberIsPlain(b, hi);
      SplitPair(a, b, '-');
      AtoiIff(a, lo);
      AtoiIff(b, hi);
      assert base[|a|] == '-';
    }
  }

  lemma BaseHasNo(base: string, min: int, max: int, lo: int, hi: int)
    requires BaseSays(base, min, max, lo, hi)
    ensures '/' !in base && ',' !in base
  {
    hide IsNumber;
    if base != "*" {
      if IsNumber(base, lo) {
        NumberIsPlain(base, lo);
      } else {
        var a, b :| base == a + "-" + b && IsNumber(a, lo) && IsNumber(b, hi) && min <= lo <= hi <= max;
        NumberIsPlain(a, lo);
        NumberIsPlain(b, hi);
      }
    }
  }

  /** A part is read as a range if and only if it says so. */
  lemma PartIff(part: string, min: int, max: int, r: Range)
    requires 0 <= min <= max <= MAX_INT64
    ensures ReadPart(part, min, max) == Some(r) <==> PartSays(part, min, max, r)
  {
    hide Atoi, Split, Index, IsNumber, ReadBase, BaseSays, ReadPart, PartSays;
    if ReadPart(part, min, max) == Some(r) {
      PartRead(part, min, max, r);
    }
    if PartSays(part, min, max, r) {
      PartSaid(part, min, max, r);
    }
  }

  lemma PartRead(part: string, min: int, max: int, r: Range)
    requires 0 <= min <= max <= MAX_INT64 && ReadPart(part, min, max) == Some(r)
    ensures PartSays(part, min, max, r)
  {
    hide Atoi, Split, IsNumber, ReadBase, BaseSays;
    var idx := Index(part, '/');
    if idx < 0 {
      BaseIff(part, min, max, r.lo, r.hi);
    } else {
      BaseIff(part[..idx], min, max, r.lo, r.hi);
      AtoiIff(part[idx + 1..], r.step);
      AtoiInRange(part[idx + 1..]);
      assert part == part[..idx] + "/" + part[idx + 1..];
    }
  }

  lemma AtoiInRange(s: string)
    ensures Atoi(s).Some? ==> MIN_INT64 <= Atoi(s).value <= MAX_INT64
  {
  }

  lemma PartSaid(part: string, min: int, max: int, r: Range)
    requires 0 <= min <= max <= MAX_INT64 && PartSays(part, min, max, r)
    ensures ReadPart(part, min, max) == Some(r)
  {
    hide Atoi, Split, Index, IsNumber, ReadBase, BaseSays, ReadPart;
    if r.step == 1 && BaseSays(part, min, max, r.lo, r.hi) {
      PlainPart(part, min, max, r);
    } else {
      var base, n :| part == base + "/" + n && IsNumber(n, r.step) && 1 <= r.step <= MAX_INT64
        && BaseSays(base, min, max, r.lo, r.hi);
      SteppedPart(base, n, min, max, r);
    }
  }

  lemma PlainPart(part: string, min: int, max: int, r: Range)
    requires 0 <= min <= max <= MAX_INT64 && r.step == 1 && BaseSays(part, min, max, r.lo, r.hi)
    ensures ReadPart(part, min, max) == Some(r)
  {
    hide Atoi, Split, Index, IsNumber, ReadBase, BaseSays;
    BaseHasNo(part, min, max, r.lo, r.hi);
    IndexOfNone(part, '/');
    BaseIff(part, min, max, r.lo, r.hi);
  }

  lemma SteppedPart(base: string, n: string, min: int, max: int, r: Range)
    requires 0 <= min <= max <= MAX_INT64 && BaseSays(base, min, max, r.lo, r.hi)
    requires IsNumber(n, r.step) && 1 <= r.step <= MAX_INT64
    ensures ReadPart(base + "/" + n, min, max) == Some(r)
  {
    hide Atoi, Split, Index, IsNumber, ReadBase, BaseSays;
    var part := base + "/" + n;
    BaseHasNo(base, min, max, r.lo, r.hi);
    IndexAfter(base, '/', n);
    BaseIff(base, min, max, r.lo, r.hi);
    AtoiIff(n, r.step);
    assert part[..|base|] == base && part[|base| + 1..] == n;
  }

  lemma IndexOfNone(s: string, c: char)
    requires c !in s
    ensures Index(s, c) < 0
  {
  }

  // ---------- a whole field ----------

  /** The field is a star, or comma parts that say the ranges. */
  ghost predicate FieldSays(raw: string, min: int, max: int, rs: seq<Range>) {
    exists parts: seq<string> :: parts != [] && raw == Join(parts, ',') && SayEach(parts, min, max, rs)
  }

  ghost predicate SayEach(parts: seq<string>, min: int, max: int, rs: seq<Range>) {
    && |parts| == |rs|
    && forall i :: 0 <= i < |parts| ==> ',' !in parts[i] && PartSays(parts[i], min, max, rs[i])
  }

  lemma {:induction false} ReadPartsIff(parts: seq<string>, min: int, max: int, rs: seq<Range>)
    requires 0 <= min <= max <= MAX_INT64
    ensures ReadParts(parts, min, max) == Some(rs) <==>
        |parts| == |rs| && forall i :: 0 <= i < |parts| ==> PartSays(parts[i], min, max, rs[i])
  {
    hide ReadPart, PartSays;
    if parts != [] {
      var n := |parts| - 1;
      if rs != [] {
        ReadPartsIff(parts[..n], min, max, rs[..|rs| - 1]);
        PartIff(parts[n], min, max, rs[|rs| - 1]);
        assert rs == rs[..|rs| - 1] + [rs[|rs| - 1]];
      }
    }
  }

  lemma PartHasNoComma(part: string, min: int, max: int, r: Range)
    requires PartSays(part, min, max, r)
    ensures ',' !in part
  {
    hide IsNumber, BaseSays;
    if r.step == 1 && BaseSays(part, min, max, r.lo, r.hi) {
      BaseHasNo(part, min, max, r.lo, r.hi);
    } else {
      var base, n :| part == base + "/" + n && IsNumber(n, r.step) && 1 <= r.step <= MAX_INT64
        && BaseSays(base, min, max, r.lo, r.hi);
      BaseHasNo(base, min, max, r.lo, r.hi);
      NumberIsPlain(n, r.step);
    }
  }

  /** A field is read as the ranges if and only if it says them. */
  lemma FieldIff(raw: string, min: int, max: int, rs: seq<Range>)
    requires 0 <= min <= max <= MAX_INT64
    ensures ReadField(raw, min, max) == Some(rs) <==> FieldSays(raw, min, max, rs)
  {
    hide PartSays, ReadParts, Split, Join, ReadPart;
    if ReadField(raw, min, max) == Some(rs) {
      FieldRead(raw, min, max, rs);
    }
    if parts: seq<string> :| parts != [] && raw == Join(parts, ',') && SayEach(parts, min, max, rs) {
      SplitJoin(parts, ',');
      ReadPartsIff(parts, min, max, rs);
      StarIsOnePart(raw, min, max, rs);
    }
  }

  lemma FieldRead(raw: string, min: int, max: int, rs: seq<Range>)
    requires 0 <= min <= max <= MAX_INT64 && ReadField(raw, min, max) == Some(rs)
    ensures FieldSays(raw, min, max, rs)
  {
    hide PartSays, ReadParts, Split, ReadPart;
    if raw == "*" {
      StarSays(min, max);
      assert raw == Join(["*"], ',') && SayEach(["*"], min, max, rs);
    } else {
      var parts := Split(raw, ',');
      JoinSplit(raw, ',');
      ReadPartsIff(parts, min, max, rs);
      assert SayEach(parts, min, max, rs);
    }
  }

  lemma StarSays(min: int, max: int)
    ensures PartSays("*", min, max, Range(min, max, 1)) && ',' !in "*"
  {
  }

  lemma StarIsOnePart(raw: string, min: int, max: int, rs: seq<Range>)
    requires 0 <= min <= max <= MAX_INT64
    ensures raw == "*" ==>
        Split(raw, ',') == ["*"] && (ReadParts(["*"], min, max) == Some(rs) ==> rs == [Range(min, max, 1)])
  {
    hide PartSays, ReadPart, ReadParts;
    if raw == "*" {
      StarSays(min, max);
      SplitPlain("*", ',');
      PartIff("*", min, max, Range(min, max, 1));
      ReadPartsIff(["*"], min, max, [Range(min, max, 1)]);
    }
  }

  // ---------- what an accepted field lists ----------

  /** x lies in the range and the step divides its distance from the start. */
  predicate Hits(r: Range, x: int)
    requires 0 < r.step
  {
    r.lo <= x <= r.hi && (x - r.lo) % r.step == 0
  }

  ghost predicate SomeHits(rs: seq<Range>, x: int) {
    exists i :: 0 <= i < |rs| && 0 < rs[i].step && Hits(rs[i], x)
  }

  lemma DenotesIff(r: Range, x: int)
    requires 0 < r.step
    ensures Denotes(r, x) <==> Hits(r, x)
  {
    if Denotes(r, x) {
      var k :| 0 <= k && At(r, k) == x && x <= r.hi;
      QuotientUnique(x - r.lo, r.step, k, 0);
      AtGrows(r, 0, k);
    }
    if Hits(r, x) {
      var k := (x - r.lo) / r.step;
      assert At(r, k) == x;
    }
  }

  lemma SomeDenotesIff(rs: seq<Range>, x: int)
    requires forall i :: 0 <= i < |rs| ==> 0 < rs[i].step
    ensures SomeDenotes(rs, x) <==> SomeHits(rs, x)
  {
    hide Denotes, Hits;
    forall i | 0 <= i < |rs| ensures Denotes(rs[i], x) <==> Hits(rs[i], x) {
      DenotesIff(rs[i], x);
    }
  }

  /** The values listed are those that one of the ranges hits, as long as no addition overflows. */
  lemma FieldLists(raw: string, min: int, max: int, rs: seq<Range>, x: int)
    requires 0 <= min <= max <= 59 && FieldSays(raw, min, max, rs) && NoOverflows(rs)
    ensures FieldList(raw, min, max).Some? && (x in FieldList(raw, min, max).value <==> SomeHits(rs, x))
  {
    hide FieldSays, ReadField, Listed, SomeDenotes, SomeHits;
    FieldIff(raw, min, max, rs);
    FitInMinutes(rs, min, max);
    assert forall i :: 0 <= i < |rs| ==> Fits(rs[i], min, max);
    ListedDenotes(rs, x);
    SomeDenotesIff(rs, x);
  }

  /** Every other text is rejected. */
  lemma RejectedIff(raw: string, min: int, max: int)
    requires 0 <= min <= max <= 59
    ensures FieldList(raw, min, max).None? <==> forall rs :: !FieldSays(raw, min, max, rs)
  {
    hide FieldSays, ReadField, Listed;
    forall rs ensures ReadField(raw, min, max) == Some(rs) <==> FieldSays(raw, min, max, rs) {
      FieldIff(raw, min, max, rs);
    }
    if FieldList(raw, min, max).Some? {
      assert FieldSays(raw, min, max, ReadField(raw, min, max).value);
    }
  }

  // ---------- the forms, one by one ----------

  lemma OnePart(raw: string, min: int, max: int, r: Range)
    requires PartSays(raw, min, max, r)
    ensures FieldSays(raw, min, max, [r])
  {
    PartHasNoComma(raw, min, max, r);
    assert raw == Join([raw], ',') && SayEach([raw], min, max, [r]);
  }

  lemma OneHits(r: Range, x: int)
    requires 0 < r.step
    ensures SomeHits([r], x) <==> Hits(r, x)
  {
    hide Hits;
    if Hits(r, x) {
      assert Hits([r][0], x);
    }
  }

  lemma ListsOne(raw: string, min: int, max: int, v: int, step: int)
    requires 0 <= min <= v <= max <= 59 && 1 <= step && v + step <= MAX_INT64
    requires PartSays(raw, min, max, Range(v, v, step))
    ensures FieldList(raw, min, max) == Some([v])
  {
    hide PartSays, FieldSays, ReadField;
    var r := Range(v, v, step);
    OnePart(raw, min, max, r);
    FieldIff(raw, min, max, [r]);
    ListedAlone(r);
    NoOverflow(r);
    assert Progression(r.(lo := v + step)) == [];
    assert Progression(r) == [v];
    assert ReadField(raw, min, max) == Some([r]) && Listed([r]) == [v];
  }

  /** A value lists itself alone, with a step too. */
  lemma ValueListsItself(v: int, n: nat, min: int, max: int)
    requires 0 <= min <= v <= max <= 59 && 1 <= n <= MAX_INT64 - 59
    ensures FieldList(Decimal(v), min, max) == Some([v])
    ensures FieldList(Decimal(v) + "/" + Decimal(n), min, max) == Some([v])
  {
    hide FieldList, IsNumber, Decimal;
    DecimalIsNumber(v);
    DecimalIsNumber(n);
    assert BaseSays(Decimal(v), min, max, v, v);
    assert PartSays(Decimal(v) + "/" + Decimal(n), min, max, Range(v, v, n));
    ListsOne(Decimal(v), min, max, v, 1);
    ListsOne(Decimal(v) + "/" + Decimal(n), min, max, v, n);
  }

  lemma ListsRange(raw: string, min: int, max: int, r: Range, x: int)
    requires 0 <= min <= max <= 59 && 1 <= r.step <= MAX_INT64 - 59 && PartSays(raw, min, max, r) && r.lo <= 59
    ensures FieldList(raw, min, max).Some? && (x in FieldList(raw, min, max).value <==> Hits(r, x))
  {
    hide FieldList, FieldSays, PartSays, SomeHits, Hits;
    OnePart(raw, min, max, r);
    OneHits(r, x);
    FieldLists(raw, min, max, [r], x);
  }

  /** A range lists its members, a step every n-th of them, and a star with a step every n-th from the least on. */
  lemma RangeForms(a: int, b: int, n: nat, min: int, max: int, x: int)
    requires 0 <= min <= a <= b <= max <= 59 && 1 <= n <= MAX_INT64 - 59
    ensures var list := FieldList(Decimal(a) + "-" + Decimal(b), min, max);
      list.Some? && (x in list.value <==> a <= x <= b)
    ensures var list := FieldList(Decimal(a) + "-" + Decimal(b) + "/" + Decimal(n), min, max);
      list.Some? && (x in list.value <==> a <= x <= b && (x - a) % n == 0)
    ensures var list := FieldList("*/" + Decimal(n), min, max);
      list.Some? && (x in list.value <==> min <= x <= max && (x - min) % n == 0)
  {
    hide FieldList, IsNumber, Decimal;
    DecimalIsNumber(a);
    DecimalIsNumber(b);
    DecimalIsNumber(n);
    var base := Decimal(a) + "-" + Decimal(b);
    assert BaseSays(base, min, max, a, b) && BaseSays("*", min, max, min, max);
    assert PartSays(base + "/" + Decimal(n), min, max, Range(a, b, n));
    assert "*/" + Decimal(n) == "*" + "/" + Decimal(n);
    ListsRange(base, min, max, Range(a, b, 1), x);
    ListsRange(base + "/" + Decimal(n), min, max, Range(a, b, n), x);
    ListsRange("*/" + Decimal(n), min, max, Range(min, max, n), x);
  }

  // ---------- the words of an expression ----------

  predicate Blank(gap: string) {
    forall i :: 0 <= i < |gap| ==> IsSpace(gap[i])
  }

  /** The words with white space before, between and after them. */
  function Spaced(words: seq<string>, gaps: seq<string>): string
    requires |gaps| == |words| + 1
  {
    if words == [] then gaps[0] else gaps[0] + words[0] + Spaced(words[1..], gaps[1..])
  }

  /** All gaps are blank, and none but the first and the last is empty. */
  predicate Separates(gaps: seq<string>) {
    && (forall i :: 0 <= i < |gaps| ==> Blank(gaps[i]))
    && (forall i :: 0 < i < |gaps| - 1 ==> gaps[i] != "")
  }

  /** The white space of ASCII. */
  lemma AsciiSpace(c: char)
    requires c as int < 128
    ensures IsSpace(c) <==> c as int in {9, 10, 11, 12, 13, 32}
  {
  }

  lemma {:induction false} SkipsBlank(gap: string, s: string)
    requires Blank(gap)
    ensures Fields(gap + s) == Fields(s)
  {
    if gap == "" {
      assert gap + s == s;
    } else {
      SkipsBlank(gap[1..], s);
      assert (gap + s)[1..] == gap[1..] + s;
    }
  }

  lemma {:induction false} WordEnds(w: string, s: string)
    requires (forall i :: 0 <= i < |w| ==> !IsSpace(w[i])) && (s == "" || IsSpace(s[0]))
    ensures WordLength(w + s) == |w|
  {
    if w == "" {
      assert w + s == s;
    } else {
      WordEnds(w[1..], s);
      assert (w + s)[1..] == w[1..] + s;
    }
  }

  lemma TakesWord(w: string, s: string)
    requires IsWord(w) && (s == "" || IsSpace(s[0]))
    ensures Fields(w + s) == [w] + Fields(s)
  {
    WordEnds(w, s);
    assert (w + s)[..|w|] == w && (w + s)[|w|..] == s && (w + s)[0] == w[0];
  }

  /** The fields of a text are its words, whatever the white space between them. */
  lemma {:induction false} FieldsOfSpaced(words: seq<string>, gaps: seq<string>)
    requires |gaps| == |words| + 1 && Separates(gaps) && forall i :: 0 <= i < |words| ==> IsWord(words[i])
    ensures Fields(Spaced(words, gaps)) == words
  {
    hide IsSpace, Fields;
    if words == [] {
      SkipsBlank(gaps[0], "");
      assert gaps[0] + "" == gaps[0];
      NoFields();
    } else {
      var rest := Spaced(words[1..], gaps[1..]);
      assert forall i :: 0 <= i < |gaps[1..]| ==> gaps[1..][i] == gaps[i + 1];
      FieldsOfSpaced(words[1..], gaps[1..]);
      assert |words| > 1 ==> rest[0] == gaps[1][0];
      TakesWord(words[0], rest);
      SkipsBlank(gaps[0], words[0] + rest);
      assert gaps[0] + words[0] + rest == gaps[0] + (words[0] + rest);
    }
  }

  lemma NoFields()
    ensures Fields("") == []
  {
  }

  /** The text is the words, each without white space, with these gaps. */
  predicate Decomposes(s: string, words: seq<string>, gaps: seq<string>) {
    && |gaps| == |words| + 1 && Separates(gaps) && (forall i :: 0 <= i < |words| ==> IsWord(words[i]))
    && s == Spaced(words, gaps)
  }

  /** And every text is of that form. */
  lemma {:induction false} SpacedOfFields(s: string) returns (gaps: seq<string>)
    ensures Decomposes(s, Fields(s), gaps)
    decreases |s|
  {
    hide IsSpace, Decomposes;
    if s == "" {
      gaps := [""];
      NothingDecomposes();
    } else if IsSpace(s[0]) {
      var rest := SpacedOfFields(s[1..]);
      gaps := BlankFirst(s[0], s[1..], Fields(s), rest);
      assert s == [s[0]] + s[1..];
    } else {
      var n := WordLength(s);
      var rest := SpacedOfFields(s[n..]);
      gaps := [""] + rest;
      WordFirst(s[..n], s[n..], Fields(s[n..]), rest);
      assert s == s[..n] + s[n..];
    }
  }

  lemma NothingDecomposes()
    ensures Decomposes("", Fields(""), [""])
  {
  }

  lemma BlankFirst(c: char, s: string, words: seq<string>, rest: seq<string>) returns (gaps: seq<string>)
    requires IsSpace(c) && Decomposes(s, words, rest)
    ensures Decomposes([c] + s, words, gaps)
  {
    hide IsSpace;
    gaps := rest[0 := [c] + rest[0]];
    SpacedMore(words, rest, [c]);
    assert Blank(rest[0]);
  }

  lemma WordFirst(w: string, s: string, words: seq<string>, rest: seq<string>)
    requires IsWord(w) && (s == "" || IsSpace(s[0])) && Decomposes(s, words, rest)
    ensures Decomposes(w + s, [w] + words, [""] + rest)
  {
    hide IsSpace;
    assert ([w] + words)[1..] == words && ([""] + rest)[1..] == rest;
    if words != [] && rest[0] == "" {
      assert IsWord(words[0]);
      StartsWithWord(words, rest);
    }
    assert "" + w + Spaced(words, rest) == w + s;
  }

  lemma SpacedMore(words: seq<string>, gaps: seq<string>, gap: string)
    requires |gaps| == |words| + 1
    ensures Spaced(words, gaps[0 := gap + gaps[0]]) == gap + Spaced(words, gaps)
  {
    assert gaps[0 := gap + gaps[0]][1..] == gaps[1..];
    if words != [] {
      assert gap + gaps[0] + words[0] + Spaced(words[1..], gaps[1..])
        == gap + (gaps[0] + words[0] + Spaced(words[1..], gaps[1..]));
    }
  }

  lemma StartsWithWord(words: seq<string>, gaps: seq<string>)
    requires |gaps| == |words| + 1 && words != [] && gaps[0] == "" && words[0] != ""
    ensures Spaced(words, gaps) != "" && Spaced(words, gaps)[0] == words[0][0]
  {
  }

  // ---------- a whole expression ----------

  /** The five ranges lists that the words of an expression say. */
  ghost predicate Says(words: seq<string>, minute: seq<Range>, hour: seq<Range>, day: seq<Range>, month: seq<Range>,
                       weekday: seq<Range>) {
    && |words| == 5
    && FieldSays(words[0], 0, 59, minute) && FieldSays(words[1], 0, 23, hour) && FieldSays(words[2], 1, 31, day)
    && FieldSays(words[3], 1, 12, month) && FieldSays(words[4], 0, 6, weekday)
  }

  lemma AcceptedWords(expr: string)
    ensures var w := Fields(expr);
      Compiled(expr).Some? <==>
        && |w| == 5 && FieldList(w[0], 0, 59).Some? && FieldList(w[1], 0, 23).Some? && FieldList(w[2], 1, 31).Some?
        && FieldList(w[3], 1, 12).Some? && FieldList(w[4], 0, 6).Some?
  {
    hide FieldList, Fields;
  }

  /** Parse accepts exactly the expressions of five words that each say something within their bounds. */
  lemma AcceptedIff(expr: string)
    ensures Compiled(expr).Some? <==>
      exists minute, hour, day, month, weekday :: Says(Fields(expr), minute, hour, day, month, weekday)
  {
    hide FieldSays, FieldList, Fields, Compiled;
    var w := Fields(expr);
    AcceptedWords(expr);
    if |w| == 5 {
      RejectedIff(w[0], 0, 59);
      RejectedIff(w[1], 0, 23);
      RejectedIff(w[2], 1, 31);
      RejectedIff(w[3], 1, 12);
      RejectedIff(w[4], 0, 6);
      if Compiled(expr).Some? {
        var minute :| FieldSays(w[0], 0, 59, minute);
        var hour :| FieldSays(w[1], 0, 23, hour);
        var day :| FieldSays(w[2], 1, 31, day);
        var month :| FieldSays(w[3], 1, 12, month);
        var weekday :| FieldSays(w[4], 0, 6, weekday);
        assert Says(w, minute, hour, day, month, weekday);
      }
    }
  }

  /** It fires at exactly the minutes whose minute, hour, day, month and weekday the five words hit. */
  lemma ExpressionFires(expr: string, minutes: seq<Range>, hours: seq<Range>, days: seq<Range>, months: seq<Range>,
      weekdays: seq<Range>, y: int, m: int, d: int, h: int, minute: int)
    requires Says(Fields(expr), minutes, hours, days, months, weekdays)
    requires NoOverflows(minutes) && NoOverflows(hours) && NoOverflows(days) && NoOverflows(months)
        && NoOverflows(weekdays)
    ensures Compiled(expr).Some?
    ensures FiresAt(Compiled(expr).value, y, m, d, h, minute) <==>
      && RealTime(y, m, d, h, minute)
      && SomeHits(minutes, minute) && SomeHits(hours, h) && SomeHits(days, d) && SomeHits(months, m)
      && SomeHits(weekdays, DayOfWeek(y, m, d))
  {
    hide FieldSays, FieldList, Fields, SomeHits, NoOverflows, DayOfWeek, Months;
    var w := Fields(expr);
    FieldLists(w[0], 0, 59, minutes, minute);
    FieldLists(w[1], 0, 23, hours, h);
    FieldLists(w[2], 1, 31, days, d);
    FieldLists(w[3], 1, 12, months, m);
    if RealTime(y, m, d, h, minute) {
      FieldLists(w[4], 0, 6, weekdays, DayOfWeek(y, m, d));
    }
    FieldLists(w[4], 0, 6, weekdays, 0);
  }
}
