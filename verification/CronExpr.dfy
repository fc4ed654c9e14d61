/** Cron fields (`src/tool/cron.rs`): the accepted grammar, the sets of values that fields stand
    for, and the matching code proved against them.
 */
module CronExpr {
  import opened Wrappers
  import opened Strings

  // ---------------------------------------------------------------- the grammar

  /** A part of a field. A number is a span of one value without a dash. */
  datatype Part = Star(step: Option<int>) | Span(a: int, b: int, dashed: bool, step: Option<int>)

  /** Reads `base` or `base/step`, with base `*`, `n` or `a-b`. */
  function ParsePart(part: string): Option<Part> {
    var cut := SplitOnce(part, '/');
    var base := if cut.Some? then cut.value.0 else part;
    var step := if cut.Some? then ParseInt(cut.value.1) else None;
    if cut.Some? && step.None? then None
    else if base == "*" then Some(Star(step))
    else
      var dash := SplitOnce(base, '-');
      var a := ParseInt(if dash.Some? then dash.value.0 else base);
      var b := ParseInt(if dash.Some? then dash.value.1 else base);
      if a.None? || b.None? then None else Some(Span(a.value, b.value, dash.Some?, step))
  }

  predicate PartOk(p: Part, lo: int, hi: int) {
    && (p.step.Some? ==> p.step.value > 0)
    && (p.Span? ==> lo <= p.a <= p.b <= hi)
  }

  /** Every comma-separated part can be read, has a positive step and stays within the bounds. */
  ghost predicate FieldOk(field: string, lo: int, hi: int) {
    forall part :: part in Split(field, ',') ==>
      ParsePart(Trim(part)).Some? && PartOk(ParsePart(Trim(part)).value, lo, hi)
  }

  const LOWS := [0, 0, 1, 1, 0]
  const HIGHS := [59, 23, 31, 12, 6]

  ghost predicate CronOk(cron: string) {
    && |Words(Trim(cron))| == 5
    && forall i :: 0 <= i < 5 ==> FieldOk(Words(Trim(cron))[i], LOWS[i], HIGHS[i])
  }

  lemma {:induction false} EmptyPartFails(part: string)
    requires part == ""
    ensures ParsePart(part).None?
  {
  }

  /** `valid_field`. */
  method ValidField(field: string, lo: int, hi: int) returns (ok: bool)
    ensures ok <==> FieldOk(field, lo, hi)
  {
    hide Split, Trim, SplitOnce, ParseInt;
    var parts := Split(field, ',');
    for i := 0 to |parts|
      invariant forall k :: 0 <= k < i ==>
                  ParsePart(Trim(parts[k])).Some? && PartOk(ParsePart(Trim(parts[k])).value, lo, hi)
    {
      var part := Trim(parts[i]);
      assert parts[i] in parts;
      if part == "" {
        EmptyPartFails(part);
        return false;
      }
      var cut := SplitOnce(part, '/');
      var base, step := part, None;
      if cut.Some? {
        base := cut.value.0;
        step := ParseInt(cut.value.1);
        if step.None? || step.value <= 0 {
          return false;
        }
      }
      if base == "*" {
        continue;
      }
      var dash := SplitOnce(base, '-');
      var a := ParseInt(if dash.Some? then dash.value.0 else base);
      var b := ParseInt(if dash.Some? then dash.value.1 else base);
      if a.None? || b.None? {
        return false;
      }
      if a.value < lo || b.value > hi || a.value > b.value {
        return false;
      }
    }
    return true;
  }

  /** `is_valid_cron`. */
  method IsValidCron(cron: string) returns (ok: bool)
    ensures ok <==> CronOk(cron)
  {
    hide Words, Trim, FieldOk;
    var fields := Words(Trim(cron));
    if |fields| != 5 {
      return false;
    }
    for i := 0 to 5
      invariant forall k :: 0 <= k < i ==> FieldOk(fields[k], LOWS[k], HIGHS[k])
    {
      var fieldOk := ValidField(fields[i], LOWS[i], HIGHS[i]);
      if !fieldOk {
        return false;
      }
    }
    return true;
  }

  // ---------------------------------------------------------------- what fields stand for

  /** `v` is one of `start`, `start + step`, `start + 2 * step`, … */
  ghost predicate OnProgression(v: int, start: int, step: int) {
    exists k: nat :: v == start + k * step
  }

  /** The values that a part stands for: all of them, a span, and either one thinned by a step.
      A span with a dash is thinned from its start; `*` and a plain number from 0. */
  ghost predicate Denotes(p: Part, v: int) {
    match p
    case Star(step) => step.Some? ==> OnProgression(v, 0, step.value)
    case Span(a, b, dashed, step) =>
      a <= v <= b && (step.Some? ==> OnProgression(v, if dashed then a else 0, step.value))
  }

  ghost predicate FieldDenotes(field: string, v: int) {
    exists part :: part in Split(field, ',') && ParsePart(Trim(part)).Some? && Denotes(ParsePart(Trim(part)).value, v)
  }

  ghost predicate CronDenotes(cron: string, values: seq<int>)
    requires |values| == 5 && |Words(Trim(cron))| == 5
  {
    forall i :: 0 <= i < 5 ==> FieldDenotes(Words(Trim(cron))[i], values[i])
  }

  lemma {:induction false} RemainderMeansProgression(v: int, start: int, step: int)
    requires step > 0
    ensures OnProgression(v, start, step) <==> v >= start && (v - start) % step == 0
  {
    if v >= start && (v - start) % step == 0 {
      var k := (v - start) / step;
      assert v == start + k * step;
    }
    if OnProgression(v, start, step) {
      var k: nat :| v == start + k * step;
      MultipleHasNoRemainder(k, step);
    }
  }

  lemma {:induction false} Multiples(d: int, step: int)
    requires step > 0
    ensures d >= 1 ==> d * step >= step
    ensures d <= -1 ==> d * step <= -step
  {
    if d >= 1 {
      assert (d - 1) * step >= 0;
    } else if d <= -1 {
      assert (d + 1) * step <= 0;
    }
  }

  lemma {:induction false} MultipleHasNoRemainder(k: nat, step: int)
    requires step > 0
    ensures k * step >= 0 && (k * step) % step == 0
  {
    var n := k * step;
    assert n == n / step * step + n % step;
    Multiples(k - n / step, step);
    assert (k - n / step) * step == n % step;
  }

  /** `field_matches` on an accepted field: the value is in the union of its parts. No step is 0. */
  method FieldMatches(field: string, value: int, lo: int, hi: int) returns (matches: bool)
    requires FieldOk(field, lo, hi)
    ensures matches <==> FieldDenotes(field, value)
  {
    hide Split, Trim, SplitOnce, ParseInt, OnProgression;
    var parts := Split(field, ',');
    for i := 0 to |parts|
      invariant forall k :: 0 <= k < i ==> !Denotes(ParsePart(Trim(parts[k])).value, value)
    {
      assert parts[i] in parts;
      var part := Trim(parts[i]);
      var cut := SplitOnce(part, '/');
      var base, step := part, None;
      if cut.Some? {
        base, step := cut.value.0, ParseInt(cut.value.1);
      }
      var inBase := true;
      if base != "*" {
        var dash := SplitOnce(base, '-');
        var a := ParseInt(if dash.Some? then dash.value.0 else base).GetOr(-1);
        var b := ParseInt(if dash.Some? then dash.value.1 else base).GetOr(-1);
        inBase := value >= a && value <= b;
      }
      if inBase {
        if step.Some? {
          var start := 0;
          if base != "*" {
            var dash := SplitOnce(base, '-');
            start := if dash.Some? then ParseInt(dash.value.0).GetOr(0) else 0;
          }
          RemainderMeansProgression(value, start, step.value);
          if value >= start && (value - start) % step.value == 0 {
            return true;
          }
        } else {
          return true;
        }
      }
    }
    return false;
  }

  /** `cron_matches_now`; `values` are minute, hour, day, month and weekday of the instant. */
  method CronMatches(cron: string, values: seq<int>) returns (matches: bool)
    requires CronOk(cron) && |values| == 5
    ensures matches <==> CronDenotes(cron, values)
  {
    hide Words, Trim, FieldOk, FieldDenotes;
    var fields := Words(Trim(cron));
    for i := 0 to 5
      invariant forall k :: 0 <= k < i ==> FieldDenotes(fields[k], values[k])
    {
      var fieldMatches := FieldMatches(fields[i], values[i], LOWS[i], HIGHS[i]);
      if !fieldMatches {
        return false;
      }
    }
    return true;
  }

  // ---------------------------------------------------------------- where this is not usual cron

  /** `*` with a step counts from 0. It counts from the lowest value of the field, as cron does,
      exactly when the step divides that value: always for minutes, hours and weekdays, and for
      days and months only with step 1. */
  lemma {:induction false} StarStepIsUsualIff(lo: nat, hi: nat, step: nat)
    requires step > 0 && lo <= hi
    ensures (forall v :: lo <= v <= hi ==> (Denotes(Star(Some(step)), v) <==> OnProgression(v, lo, step)))
            <==> lo % step == 0
  {
    hide OnProgression;
    forall v | lo <= v <= hi ensures Denotes(Star(Some(step)), v) <==> v % step == 0 {
      RemainderMeansProgression(v, 0, step);
    }
    forall v | lo <= v <= hi ensures OnProgression(v, lo, step) <==> (v - lo) % step == 0 {
      RemainderMeansProgression(v, lo, step);
    }
    if lo % step == 0 {
      forall v | lo <= v <= hi ensures v % step == 0 <==> (v - lo) % step == 0 {
        SameRemainder(v, lo, step);
      }
    } else {
      assert OnProgression(lo, lo, step) && !Denotes(Star(Some(step)), lo);
    }
  }

  lemma {:induction false} SameRemainder(v: int, lo: nat, step: nat)
    requires step > 0 && lo % step == 0 && lo <= v
    ensures v % step == 0 <==> (v - lo) % step == 0
  {
    var q := lo / step;
    assert lo == q * step;
    if v % step == 0 {
      assert v - lo == (v / step - q) * step;
      MultipleHasNoRemainder(v / step - q, step);
    }
    if (v - lo) % step == 0 {
      assert v == ((v - lo) / step + q) * step;
      MultipleHasNoRemainder((v - lo) / step + q, step);
    }
  }

  /** A plain number with a step matches that number if the step divides it, and nothing else;
      never the later values that cron would add. */
  lemma {:induction false} SteppedNumber(n: nat, step: nat, v: int)
    requires step > 0
    ensures Denotes(Span(n, n, false, Some(step)), v) <==> v == n && n % step == 0
  {
    RemainderMeansProgression(v, 0, step);
  }

  /** It matches what cron matches, from that number on in steps, exactly when the step divides
      the number and the next value is past the end of the field. */
  lemma {:induction false} SteppedNumberIsUsualIff(n: nat, step: nat, lo: nat, hi: nat)
    requires step > 0 && lo <= n <= hi
    ensures (forall v :: lo <= v <= hi ==> (Denotes(Span(n, n, false, Some(step)), v) <==> OnProgression(v, n, step)))
            <==> n % step == 0 && n + step > hi
  {
    hide OnProgression, Denotes;
    var p := Span(n, n, false, Some(step));
    forall v | lo <= v <= hi
      ensures Denotes(p, v) <==> v == n && n % step == 0
      ensures OnProgression(v, n, step) <==> v >= n && (v - n) % step == 0
    {
      SteppedNumber(n, step, v);
      RemainderMeansProgression(v, n, step);
    }
    assert OnProgression(n, n, step);
    if n + step <= hi {
      assert (n + step - n) % step == 0;
      assert OnProgression(n + step, n, step) && !Denotes(p, n + step);
    } else {
      assert forall v :: n < v <= hi ==> !OnProgression(v, n, step);
    }
  }

  // ---------------------------------------------------------------- an expression that never fires

  /** Accepted. In cron it means minutes 5, 7, 9 and so on. */
  const NEVER := "5/2 * * * *"

  lemma {:induction false} NeverFires(values: seq<int>)
    requires |values| == 5
    ensures CronOk(NEVER) && !CronDenotes(NEVER, values)
  {
    hide Words, Trim, FieldOk, FieldDenotes;
    NeverFields();
    SteppedFive(values[0]);
    StarOk();
  }

  lemma {:induction false} NeverFields()
    ensures Words(Trim(NEVER)) == ["5/2", "*", "*", "*", "*"]
  {
    hide Words, Trim;
    NothingToTrim();
    FirstField();
    FourStars("5/2");
    assert NEVER == "5/2" + " *" + " *" + " *" + " *";
  }

  lemma {:induction false} NothingToTrim()
    ensures Trim(NEVER) == NEVER
  {
  }

  lemma {:induction false} FirstField()
    ensures Words("5/2") == ["5/2"]
  {
    hide Words;
    WordsPush("", '5');
    WordsPush("5", '/');
    WordsPush("5/", '2');
    assert "" + ['5'] == "5" && "5" + ['/'] == "5/" && "5/" + ['2'] == "5/2";
  }

  lemma {:induction false} FourStars(s: string)
    ensures Words(s + " *" + " *" + " *" + " *") == Words(s) + ["*", "*", "*", "*"]
  {
    hide Words;
    OneMoreStar(s);
    OneMoreStar(s + " *");
    OneMoreStar(s + " *" + " *");
    OneMoreStar(s + " *" + " *" + " *");
  }

  lemma {:induction false} OneMoreStar(s: string)
    ensures Words(s + " *") == Words(s) + ["*"]
  {
    WordsPush(s, ' ');
    WordsPush(s + " ", '*');
    assert s + " *" == s + " " + "*";
  }

  lemma {:induction false} StarOk()
    ensures forall lo, hi :: FieldOk("*", lo, hi)
  {
    NoSeparator("*", ',');
    assert SplitOnce("", '/') == None && SplitOnce("*", '/') == None;
    assert Trim("*") == "*" && ParsePart("*") == Some(Star(None));
  }

  lemma {:induction false} SteppedFive(v: int)
    ensures FieldOk("5/2", 0, 59) && !FieldDenotes("5/2", v)
  {
    hide OnProgression;
    NoSeparator("5/2", ',');
    FiveByTwo();
    SteppedNumber(5, 2, v);
  }

  lemma {:induction false} FiveByTwo()
    ensures Trim("5/2") == "5/2" && ParsePart("5/2") == Some(Span(5, 5, false, Some(2)))
  {
    assert "/2"[1..] == "2" && "5/2"[1..] == "/2";
    assert SplitOnce("/2", '/') == Some(("", "2")) && ['5'] + "" == "5";
    assert SplitOnce("5/2", '/') == Some(("5", "2"));
    assert SplitOnce("5", '-') == None by { assert SplitOnce("", '-') == None && "5"[1..] == ""; }
    assert ParseInt("5") == Some(5) by { assert "5"[..0] == "" && Digits("5") == Some(5); }
    assert ParseInt("2") == Some(2) by { assert "2"[..0] == "" && Digits("2") == Some(2); }
  }
}
