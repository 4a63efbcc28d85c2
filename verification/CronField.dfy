/** parseField and Parse: the text of a cron expression and the values it lists. */
module CronField {
  import opened Model
  import opened CronText

  /** One comma part of a field, read: every step-th value from lo to hi. */
  datatype Range = Range(lo: int, hi: int, step: int)

  function At(r: Range, k: int): int {
    r.lo + k * r.step
  }

  /** x is lo + k * step for some k and does not exceed hi. */
  ghost predicate Denotes(r: Range, x: int) {
    exists k :: 0 <= k && At(r, k) == x && x <= r.hi
  }

  /** The values a range stands for, ascending. */
  function Progression(r: Range): (s: seq<int>)
    requires 0 < r.step
    decreases r.hi - r.lo
  {
    if r.lo > r.hi then [] else [r.lo] + Progression(r.(lo := r.lo + r.step))
  }

  lemma {:induction false} ProgressionAt(r: Range)
    requires 0 < r.step
    ensures var s := Progression(r); (forall i :: 0 <= i < |s| ==> s[i] == At(r, i) <= r.hi) && At(r, |s|) > r.hi
    decreases r.hi - r.lo
  {
    if r.lo <= r.hi {
      var next := r.(lo := r.lo + r.step);
      ProgressionAt(next);
      forall k ensures At(r, k) == At(next, k - 1) {
      }
    }
  }

  lemma AtGrows(r: Range, i: int, j: int)
    requires 0 < r.step && i <= j
    ensures At(r, i) <= At(r, j)
  {
    assert 0 <= (j - i) * r.step;
  }

  /** The list of a range holds exactly the values the range denotes. */
  lemma ProgressionDenotes(r: Range, x: int)
    requires 0 < r.step
    ensures x in Progression(r) <==> Denotes(r, x)
  {
    var s := Progression(r);
    ProgressionAt(r);
    if x in s {
      var i :| 0 <= i < |s| && s[i] == x;
      assert At(r, i) == x;
    }
    if Denotes(r, x) {
      var k :| 0 <= k && At(r, k) == x && x <= r.hi;
      if |s| <= k {
        AtGrows(r, |s|, k);
      }
      assert s[k] == x;
    }
  }

  // ---------- the loop over machine integers ----------

  /** The sum of two int64 values, the second positive, as Go computes it. */
  function Wrap64(x: int): int {
    if x > MAX_INT64 then x - 0x1_0000_0000_0000_0000 else x
  }

  /** The values the loop variable can take when it starts at 0..59. */
  predicate LoopValue(v: int, step: int) {
    if step <= 0x4000_0000_0000_0000 then 0 <= v
    else -60 <= v || (MIN_INT64 <= v <= MIN_INT64 + 59 && MAX_INT64 - 60 < step)
  }

  function LoopRank(v: int, hi: int, step: int): int {
    if v > hi then 0
    else if step <= 0x4000_0000_0000_0000 then 1 + hi - v
    else if v < -60 then 100 + v - MIN_INT64
    else 100 + v
  }

  /** The values the stepping loop visits once its variable has reached v. */
  function Visited(v: int, hi: int, step: int): seq<int>
    requires 0 <= hi <= 59 && 0 < step <= MAX_INT64 && LoopValue(v, step)
    decreases LoopRank(v, hi, step)
  {
    if v > hi then [] else [v] + Visited(Wrap64(v + step), hi, step)
  }

  /** The loop visits the range's values, and no others, if and only if the first addition does not overflow. */
  lemma {:induction false} VisitedIffNoOverflow(r: Range)
    requires 0 <= r.lo <= r.hi <= 59 && 0 < r.step <= MAX_INT64
    ensures Visited(r.lo, r.hi, r.step) == Progression(r) <==> r.lo + r.step <= MAX_INT64
  {
    if r.lo + r.step <= MAX_INT64 {
      NoOverflow(r);
    } else {
      var s := Visited(r.lo, r.hi, r.step);
      var v := Wrap64(r.lo + r.step);
      assert v < 0 && Visited(v, r.hi, r.step) == [v] + Visited(Wrap64(v + r.step), r.hi, r.step);
      assert s[1] == v;
      ProgressionAt(r);
      AtGrows(r, 0, 1);
    }
  }

  lemma {:induction false} NoOverflow(r: Range)
    requires 0 <= r.lo && 0 <= r.hi <= 59 && 0 < r.step && (r.lo <= r.hi ==> r.lo + r.step <= MAX_INT64)
        && r.step <= MAX_INT64
    ensures Visited(r.lo, r.hi, r.step) == Progression(r)
    decreases r.hi - r.lo
  {
    if r.lo <= r.hi {
      NoOverflow(r.(lo := r.lo + r.step));
    }
  }

  // ---------- reading the text ----------

  predicate Fits(r: Range, min: int, max: int) {
    min <= r.lo <= r.hi <= max && 0 < r.step <= MAX_INT64
  }

  predicate AllFit(rs: seq<Range>, min: int, max: int) {
    forall i :: 0 <= i < |rs| ==> Fits(rs[i], min, max)
  }

  /** The base of a part is *, a value, or a range: the least and the greatest value it stands for. */
  function ReadBase(base: string, min: int, max: int): (r: Option<(int, int)>)
    requires min <= max
    ensures r.Some? ==> min <= r.value.0 <= r.value.1 <= max
  {
    if base == "*" then Some((min, max))
    else
      var ends := Split(base, '-');
      if |ends| > 2 then None
      else
        var a, b := Atoi(ends[0]), Atoi(ends[|ends| - 1]);
        if a.None? || b.None? || a.value < min || b.value > max || a.value > b.value then None
        else Some((a.value, b.value))
  }

  /** A part is a base, or a base, a slash and a step. */
  function ReadPart(part: string, min: int, max: int): (r: Option<Range>)
    requires min <= max
    ensures r.Some? ==> Fits(r.value, min, max)
  {
    var idx := Index(part, '/');
    var base := if idx < 0 then part else part[..idx];
    var step := if idx < 0 then Some(1) else Atoi(part[idx + 1..]);
    if step.None? || step.value <= 0 then None
    else
      var ends := ReadBase(base, min, max);
      if ends.None? then None else Some(Range(ends.value.0, ends.value.1, step.value))
  }

  function ReadParts(parts: seq<string>, min: int, max: int): (r: Option<seq<Range>>)
    requires min <= max
    ensures r.Some? ==> |r.value| == |parts| && AllFit(r.value, min, max)
  {
    if parts == [] then Some([])
    else
      var front, last := ReadParts(parts[..|parts| - 1], min, max), ReadPart(parts[|parts| - 1], min, max);
      if front.None? || last.None? then None else Some(front.value + [last.value])
  }

  function ReadField(raw: string, min: int, max: int): (r: Option<seq<Range>>)
    requires min <= max
    ensures r.Some? ==> r.value != [] && AllFit(r.value, min, max)
  {
    if raw == "*" then Some([Range(min, max, 1)]) else ReadParts(Split(raw, ','), min, max)
  }

  /** What parseField lists for ranges it has read. */
  function Listed(rs: seq<Range>): seq<int>
    requires AllFit(rs, 0, 59)
  {
    if rs == [] then []
    else
      var r := rs[|rs| - 1];
      assert Fits(r, 0, 59);
      Listed(rs[..|rs| - 1]) + Visited(r.lo, r.hi, r.step)
  }

  lemma FitInMinutes(rs: seq<Range>, min: int, max: int)
    requires 0 <= min <= max <= 59 && AllFit(rs, min, max)
    ensures AllFit(rs, 0, 59)
  {
  }

  /** The result of parseField. */
  function FieldList(raw: string, min: int, max: int): Option<seq<int>>
    requires 0 <= min <= max <= 59
  {
    var rs := ReadField(raw, min, max);
    if rs.None? then None
    else
      FitInMinutes(rs.value, min, max);
      Some(Listed(rs.value))
  }

  lemma ListedAlone(r: Range)
    requires Fits(r, 0, 59)
    ensures Listed([r]) == Visited(r.lo, r.hi, r.step)
  {
    assert [r][..0] == [];
  }

  // ---------- the code ----------

  method ParseField(raw: string, min: int, max: int) returns (r: Option<seq<int>>)
    requires 0 <= min <= max <= 59
    ensures r == FieldList(raw, min, max)
  {
    hide ReadPart, ReadParts, Listed, Index, Atoi, Visited, Split, AllFit;
    if raw == "*" {
      StarFieldList(min, max);
      var all := AppendSteps([], min, max, 1);
      assert [] + Visited(min, max, 1) == Visited(min, max, 1);
      return Some(all);
    }
    var parts := Split(raw, ',');
    var out: seq<int> := [];
    ghost var rs: seq<Range> := [];
    NoPartsRead(parts, min, max);
    for i := 0 to |parts|
      invariant ReadSoFar(parts, i, min, max, rs, out)
    {
      var read := ParsePart(parts[i], min, max);
      if read.None? {
        Rejected(parts, i, min, max);
        return None;
      }
      var part := read.value;
      ReadOneMore(parts, i, min, max, rs, out, part);
      out := AppendSteps(out, part.lo, part.hi, part.step);
      rs := rs + [part];
    }
    assert parts[..|parts|] == parts;
    return Some(out);
  }

  /** The first n parts read as rs, and out is what they list. */
  ghost predicate ReadSoFar(parts: seq<string>, n: nat, min: int, max: int, rs: seq<Range>, out: seq<int>)
    requires n <= |parts| && min <= max
  {
    ReadParts(parts[..n], min, max) == Some(rs) && AllFit(rs, 0, 59) && out == Listed(rs)
  }

  lemma NoPartsRead(parts: seq<string>, min: int, max: int)
    requires min <= max
    ensures ReadSoFar(parts, 0, min, max, [], [])
  {
  }

  lemma ReadOneMore(parts: seq<string>, n: nat, min: int, max: int, rs: seq<Range>, out: seq<int>, r: Range)
    requires 0 <= min <= max <= 59 && n < |parts| && ReadSoFar(parts, n, min, max, rs, out)
    requires ReadPart(parts[n], min, max) == Some(r)
    ensures LoopValue(r.lo, r.step) && ReadSoFar(parts, n + 1, min, max, rs + [r], out + Visited(r.lo, r.hi, r.step))
  {
    hide ReadPart, ReadParts, Listed, Visited;
    ReadPartsMore(parts, n, min, max);
    ListedMore(rs, r);
  }

  lemma ReadPartsMore(parts: seq<string>, n: nat, min: int, max: int)
    requires min <= max && n < |parts|
    ensures ReadParts(parts[..n + 1], min, max) ==
      var front, last := ReadParts(parts[..n], min, max), ReadPart(parts[n], min, max);
      if front.None? || last.None? then None else Some(front.value + [last.value])
  {
    hide ReadPart;
    assert parts[..n + 1][..n] == parts[..n];
  }

  lemma ListedMore(rs: seq<Range>, r: Range)
    requires AllFit(rs, 0, 59) && Fits(r, 0, 59)
    ensures AllFit(rs + [r], 0, 59) && Listed(rs + [r]) == Listed(rs) + Visited(r.lo, r.hi, r.step)
  {
    hide Visited;
    assert (rs + [r])[..|rs|] == rs;
  }

  lemma StarFieldList(min: int, max: int)
    requires 0 <= min <= max <= 59
    ensures FieldList("*", min, max) == Some(Visited(min, max, 1))
  {
    hide Visited;
    ListedAlone(Range(min, max, 1));
  }

  /** One round of parseField's loop up to the values it appends. */
  method ParsePart(part: string, min: int, max: int) returns (r: Option<Range>)
    requires min <= max
    ensures r == ReadPart(part, min, max)
  {
    hide Atoi, Index, Split;
    var step, base := 1, part;
    var idx := Index(part, '/');
    if idx >= 0 {
      base := part[..idx];
      var n := Atoi(part[idx + 1..]);
      if n.None? || n.value <= 0 {
        return None;
      }
      step := n.value;
    }
    var lo, hi := min, max;
    if base != "*" {
      var rangeParts := Split(base, '-');
      if |rangeParts| == 1 {
        SplitAlone(base, '-');
        var v := Atoi(base);
        if v.None? || v.value < min || v.value > max {
          return None;
        }
        lo, hi := v.value, v.value;
      } else if |rangeParts| == 2 {
        var a, b := Atoi(rangeParts[0]), Atoi(rangeParts[1]);
        if a.None? || b.None? || a.value < min || b.value > max || a.value > b.value {
          return None;
        }
        lo, hi := a.value, b.value;
      } else {
        return None;
      }
    }
    return Some(Range(lo, hi, step));
  }

  /** Appends every value the stepping loop visits. */
  method AppendSteps(list: seq<int>, lo: int, hi: int, step: int) returns (out: seq<int>)
    requires 0 <= lo <= hi <= 59 && 0 < step <= MAX_INT64
    ensures out == list + Visited(lo, hi, step)
  {
    out := list;
    var v := lo;
    while v <= hi
      invariant LoopValue(v, step) && out + Visited(v, hi, step) == list + Visited(lo, hi, step)
      decreases LoopRank(v, hi, step)
    {
      out := out + [v];
      v := Wrap64(v + step);
    }
  }

  lemma SplitAlone(s: string, c: char)
    requires |Split(s, c)| == 1
    ensures Split(s, c) == [s]
  {
  }

  lemma {:induction false} Rejected(parts: seq<string>, i: nat, min: int, max: int)
    requires min <= max && i < |parts| && ReadPart(parts[i], min, max).None?
    ensures ReadParts(parts, min, max).None?
  {
    if i < |parts| - 1 {
      Rejected(parts[..|parts| - 1], i, min, max);
    }
  }

  // ---------- what an accepted field lists ----------

  predicate NoOverflows(rs: seq<Range>) {
    forall i :: 0 <= i < |rs| ==> rs[i].lo + rs[i].step <= MAX_INT64
  }

  predicate InBounds(s: seq<int>, min: int, max: int) {
    forall i :: 0 <= i < |s| ==> min <= s[i] <= max
  }

  /** The list stays within the field's bounds if and only if no part's first step overflows. */
  lemma {:induction false} InBoundsIffNoOverflow(rs: seq<Range>, min: int, max: int)
    requires 0 <= min <= max <= 59 && AllFit(rs, min, max) && AllFit(rs, 0, 59)
    ensures InBounds(Listed(rs), min, max) <==> NoOverflows(rs)
  {
    if rs != [] {
      var front, r := rs[..|rs| - 1], rs[|rs| - 1];
      InBoundsIffNoOverflow(front, min, max);
      VisitedInBounds(r, min, max);
      InBoundsConcat(Listed(front), Visited(r.lo, r.hi, r.step), min, max);
      assert NoOverflows(rs) <==> NoOverflows(front) && r.lo + r.step <= MAX_INT64;
    }
  }

  lemma InBoundsConcat(s: seq<int>, t: seq<int>, min: int, max: int)
    ensures InBounds(s + t, min, max) <==> InBounds(s, min, max) && InBounds(t, min, max)
  {
    if InBounds(s + t, min, max) {
      forall i | 0 <= i < |t| ensures min <= t[i] <= max {
        assert (s + t)[|s| + i] == t[i];
      }
      forall i | 0 <= i < |s| ensures min <= s[i] <= max {
        assert (s + t)[i] == s[i];
      }
    }
  }

  lemma VisitedInBounds(r: Range, min: int, max: int)
    requires 0 <= min <= max <= 59 && Fits(r, min, max)
    ensures InBounds(Visited(r.lo, r.hi, r.step), min, max) <==> r.lo + r.step <= MAX_INT64
  {
    var s := Visited(r.lo, r.hi, r.step);
    if r.lo + r.step <= MAX_INT64 {
      NoOverflow(r);
      ProgressionAt(r);
      forall i | 0 <= i < |s| ensures min <= s[i] <= max {
        AtGrows(r, 0, i);
      }
    } else {
      var v := Wrap64(r.lo + r.step);
      assert v < 0 && Visited(v, r.hi, r.step) == [v] + Visited(Wrap64(v + r.step), r.hi, r.step);
      assert s[1] == v;
    }
  }

  ghost predicate SomeDenotes(rs: seq<Range>, x: int) {
    exists i :: 0 <= i < |rs| && Denotes(rs[i], x)
  }

  /** Without overflow the list is the union of what its parts denote. */
  lemma {:induction false} ListedDenotes(rs: seq<Range>, x: int)
    requires AllFit(rs, 0, 59) && NoOverflows(rs)
    ensures x in Listed(rs) <==> SomeDenotes(rs, x)
  {
    if rs != [] {
      hide Denotes;
      var front, r := rs[..|rs| - 1], rs[|rs| - 1];
      ListedDenotes(front, x);
      NoOverflow(r);
      ProgressionDenotes(r, x);
      if SomeDenotes(front, x) {
        var i :| 0 <= i < |front| && Denotes(front[i], x);
        assert Denotes(rs[i], x);
      }
      if SomeDenotes(rs, x) {
        var i :| 0 <= i < |rs| && Denotes(rs[i], x);
        assert i < |front| ==> Denotes(front[i], x);
      }
    }
  }

  // ---------- writing a field ----------

  function Text(r: Range): string
    requires 0 <= r.lo <= r.hi && 0 < r.step
  {
    Decimal(r.lo) + "-" + Decimal(r.hi) + "/" + Decimal(r.step)
  }

  function Texts(rs: seq<Range>): (parts: seq<string>)
    requires AllFit(rs, 0, 59)
  {
    seq(|rs|, i requires 0 <= i < |rs| => assert Fits(rs[i], 0, 59); Text(rs[i]))
  }

  lemma ReadText(r: Range, min: int, max: int)
    requires 0 <= min <= max <= 59 && Fits(r, min, max)
    ensures ReadPart(Text(r), min, max) == Some(r)
    ensures ',' !in Text(r) && '*' !in Text(r)
  {
    hide Atoi, Index, Split, Decimal, Join;
    AtoiOfDecimal(r.lo);
    AtoiOfDecimal(r.hi);
    AtoiOfDecimal(r.step);
    NoSpecials(r.lo);
    NoSpecials(r.hi);
    NoSpecials(r.step);
    SplitRange(Decimal(r.lo), Decimal(r.hi), Decimal(r.step));
  }

  predicate Plain(s: string) {
    ',' !in s && '-' !in s && '/' !in s && '*' !in s
  }

  lemma NoSpecials(n: nat)
    ensures Plain(Decimal(n))
  {
    DecimalHasNo(n, ',');
    DecimalHasNo(n, '-');
    DecimalHasNo(n, '/');
    DecimalHasNo(n, '*');
  }

  lemma SplitRange(lo: string, hi: string, step: string)
    requires Plain(lo) && Plain(hi) && Plain(step)
    ensures var part := lo + "-" + hi + "/" + step;
      && Index(part, '/') == |lo| + 1 + |hi| && part[..|lo| + 1 + |hi|] == lo + "-" + hi
      && part[|lo| + 1 + |hi| + 1..] == step && Split(lo + "-" + hi, '-') == [lo, hi] && lo + "-" + hi != "*"
  {
    var base := lo + "-" + hi;
    IndexAfter(base, '/', step);
    SplitPair(lo, hi, '-');
    assert base[|lo|] == '-';
  }

  lemma SplitPair(a: string, b: string, c: char)
    requires c !in a && c !in b
    ensures Split(a + [c] + b, c) == [a, b]
  {
    JoinCons(a, [b], c);
    assert [a] + [b] == [a, b];
    SplitJoin([a, b], c);
  }

  /** Every list of ranges within the bounds can be written, and parseField reads it back. */
  lemma ReadFieldOfTexts(rs: seq<Range>, min: int, max: int)
    requires 0 <= min <= max <= 59 && rs != [] && AllFit(rs, min, max) && AllFit(rs, 0, 59)
    ensures ReadField(Join(Texts(rs), ','), min, max) == Some(rs)
  {
    hide ReadPart, Text;
    var parts := Texts(rs);
    forall i | 0 <= i < |rs|
      ensures ReadPart(parts[i], min, max) == Some(rs[i]) && ',' !in parts[i] && '*' !in parts[i] {
      assert Fits(rs[i], min, max);
      ReadText(rs[i], min, max);
    }
    SplitJoin(parts, ',');
    StarNotIn(parts);
    ReadPartsEach(parts, rs, min, max);
  }

  lemma {:induction false} ReadPartsEach(parts: seq<string>, rs: seq<Range>, min: int, max: int)
    requires min <= max && |parts| == |rs|
    requires forall i :: 0 <= i < |parts| ==> ReadPart(parts[i], min, max) == Some(rs[i])
    ensures ReadParts(parts, min, max) == Some(rs)
  {
    hide ReadPart;
    if parts != [] {
      var front := rs[..|rs| - 1];
      forall i | 0 <= i < |front| ensures ReadPart(parts[..|parts| - 1][i], min, max) == Some(front[i]) {
        assert ReadPart(parts[i], min, max) == Some(rs[i]);
      }
      ReadPartsEach(parts[..|parts| - 1], front, min, max);
      assert ReadPart(parts[|rs| - 1], min, max) == Some(rs[|rs| - 1]);
      assert rs == front + [rs[|rs| - 1]];
    }
  }

  lemma StarNotIn(parts: seq<string>)
    requires parts != [] && forall i :: 0 <= i < |parts| ==> '*' !in parts[i]
    ensures Join(parts, ',') != "*"
  {
    if |parts| == 1 {
      assert '*' in "*";
    } else if parts[0] == "" {
      assert Join(parts, ',')[0] == ',';
    } else {
      assert |Join(parts, ',')| >= 2;
    }
  }

  /** The star, the star with step 1 and the full range are read alike. */
  lemma StarForms(min: int, max: int)
    requires 0 <= min <= max <= 59
    ensures ReadField("*", min, max) == Some([Range(min, max, 1)])
    ensures ReadField("*/1", min, max) == Some([Range(min, max, 1)])
    ensures ReadField(Decimal(min) + "-" + Decimal(max), min, max) == Some([Range(min, max, 1)])
  {
    StarSlashOne(min, max);
    FullRange(min, max);
  }

  lemma AlonePart(raw: string, min: int, max: int)
    requires min <= max && raw != "*" && ',' !in raw
    ensures ReadField(raw, min, max) == var r := ReadPart(raw, min, max); if r.None? then None else Some([r.value])
  {
    hide ReadPart, Split;
    assert Join([raw], ',') == raw;
    SplitJoin([raw], ',');
    var r := ReadPart(raw, min, max);
    if r.Some? {
      ReadPartsEach([raw], [r.value], min, max);
    } else {
      Rejected([raw], 0, min, max);
    }
  }

  lemma StarSlashOne(min: int, max: int)
    requires min <= max
    ensures ReadField("*/1", min, max) == Some([Range(min, max, 1)])
  {
    hide Atoi, Index, Split, ReadField;
    AlonePart("*/1", min, max);
    IndexAfter("*", '/', "1");
    assert "*" + ['/'] + "1" == "*/1" && "*/1"[..1] == "*" && "*/1"[2..] == "1" == Decimal(1);
    AtoiOfDecimal(1);
  }

  lemma FullRange(min: int, max: int)
    requires 0 <= min <= max <= 59
    ensures ReadField(Decimal(min) + "-" + Decimal(max), min, max) == Some([Range(min, max, 1)])
  {
    hide Atoi, Index, Split, ReadField, Decimal;
    var a, b := Decimal(min), Decimal(max);
    NoSpecials(min);
    NoSpecials(max);
    SplitPair(a, b, '-');
    assert (a + "-" + b)[|a|] == '-';
    AlonePart(a + "-" + b, min, max);
    AtoiOfDecimal(min);
    AtoiOfDecimal(max);
  }

  /** What they are read as lists every value of the field. */
  lemma StarListsAll(min: int, max: int, x: int)
    requires 0 <= min <= x <= max <= 59
    ensures x in Listed([Range(min, max, 1)])
  {
    var r := Range(min, max, 1);
    assert At(r, x - min) == x;
    assert Denotes([r][0], x);
    ListedDenotes([r], x);
  }
}
