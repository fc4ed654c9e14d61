/** What a poll and a deletion leave in the cron store, in which order, and what a poll returns; and
    how the parts of a field are read.
 */
module CronLaws {
  import opened Wrappers
  import opened Sequences
  import opened Strings
  import opened CronExpr
  import opened CronStores
  import CronRuns

  // ---------------------------------------------------------------- the store

  ghost predicate FiresNow(e: CronEntry, now: int, values: seq<int>)
    requires |values| == 5
  {
    CronOk(e.cron) && CronDenotes(e.cron, values) && !(e.lastFired.Some? && now < e.lastFired.value + 60_000_000_000)
  }

  ghost function Fires(now: int, values: seq<int>): CronEntry -> bool
    requires |values| == 5
  {
    (e: CronEntry) => FiresNow(e, now, values)
  }

  /** All but the one-shots that fire. */
  ghost function Survives(now: int, values: seq<int>): CronEntry -> bool
    requires |values| == 5
  {
    (e: CronEntry) => !(FiresNow(e, now, values) && e.oneShot)
  }

  ghost function Remembering(now: int, values: seq<int>): CronEntry -> CronEntry
    requires |values| == 5
  {
    (e: CronEntry) => if FiresNow(e, now, values) then e.(lastFired := Some(now)) else e
  }

  ghost function PromptOf(): CronEntry -> string { (e: CronEntry) => e.prompt }

  ghost function OtherThan(id: nat): CronEntry -> bool { (e: CronEntry) => e.id != id }

  lemma {:induction false} DueIff(e: CronEntry, now: int, values: seq<int>)
    requires |values| == 5 && CronOk(e.cron)
    ensures IsDue(e, now, values) <==> FiresNow(e, now, values)
  {
    hide CronOk, CronDenotes;
    RecentlyMeansWithinAMinute(e, now);
  }

  /** A poll returns the prompts of exactly the entries that fire, in the order of the store. */
  lemma {:induction false} PromptsAre(entries: seq<CronEntry>, now: int, values: seq<int>)
    requires AllOk(entries) && |values| == 5
    ensures Filtered(entries, Fires(now, values), PromptOf(), Prompts(DueEntries(entries, now, values)))
  {
    hide FiresNow, IsDue, CronOk, Filtered, Prompts, DueEntries;
    if entries == [] {
      FilteredNothing(Fires(now, values), PromptOf());
      NoneDueYet(entries, now, values);
      assert entries[..0] == entries;
    } else {
      var n := |entries| - 1;
      var before := Prompts(DueEntries(entries[..n], now, values));
      PromptsAre(entries[..n], now, values);
      FilteredNext(entries[..n], Fires(now, values), PromptOf(), before, entries[n]);
      assert entries == entries[..n] + [entries[n]] && entries[..n + 1] == entries;
      assert entries[n] in entries;
      DueIff(entries[n], now, values);
      DueNext(entries, n, now, values);
      assert before + [] == before;
    }
  }

  lemma {:induction false} WithoutAllNext(entries: seq<CronEntry>, e: CronEntry, ids: seq<nat>)
    ensures WithoutAll(entries + [e], ids) == WithoutAll(entries, ids) + if e.id in ids then [] else [e]
  {
    if ids != [] {
      var n := |ids| - 1;
      var rest := WithoutAll(entries, ids[..n]);
      WithoutAllNext(entries, e, ids[..n]);
      assert ids == ids[..n] + [ids[n]];
      assert rest + [] == rest;
      assert (rest + [e])[..|rest|] == rest;
      assert Without(rest, ids[n]) + [] == Without(rest, ids[n]);
    }
  }

  lemma {:induction false} NothingWithout(ids: seq<nat>)
    ensures WithoutAll([], ids) == []
  {
    if ids != [] {
      NothingWithout(ids[..|ids| - 1]);
    }
  }

  /** The ids removed are those of the one-shots that fire. */
  lemma {:induction false} RemovedIff(entries: seq<CronEntry>, nextId: nat, now: int, values: seq<int>, k: nat)
    requires StoreOk(entries, nextId) && |values| == 5 && k < |entries|
    ensures entries[k].id in OneShotIds(DueEntries(entries, now, values)) <==> !Survives(now, values)(entries[k])
  {
    hide IsDue, FiresNow, CronOk, DueEntries, OneShotIds;
    var due, id := DueEntries(entries, now, values), entries[k].id;
    assert entries[k] in entries;
    DueIff(entries[k], now, values);
    CronRuns.OneShotIdsIn(due, id);
    CronRuns.DueIn(entries, now, values, entries[k]);
    forall e | e in due && e.id == id ensures e == entries[k] {
      CronRuns.DueIn(entries, now, values, e);
      var j :| 0 <= j < |entries| && entries[j] == e;
    }
  }

  lemma {:induction false} PolledUpto(entries: seq<CronEntry>, nextId: nat, now: int, values: seq<int>, n: nat)
    requires StoreOk(entries, nextId) && |values| == 5 && n <= |entries|
    ensures Filtered(entries[..n], Survives(now, values), Remembering(now, values),
                     WithoutAll(Marked(entries, now, values)[..n], OneShotIds(DueEntries(entries, now, values))))
  {
    hide FiresNow, IsDue, CronOk, Filtered, WithoutAll, DueEntries, OneShotIds;
    var keep, mark := Survives(now, values), Remembering(now, values);
    var marked, ids := Marked(entries, now, values), OneShotIds(DueEntries(entries, now, values));
    if n == 0 {
      FilteredNothing(keep, mark);
      NothingWithout(ids);
      assert entries[..0] == [] && marked[..0] == [];
    } else {
      var k := n - 1;
      PolledUpto(entries, nextId, now, values, k);
      RemovedIff(entries, nextId, now, values, k);
      MarkedOne(entries, nextId, now, values, k);
      assert entries[..n] == entries[..k] + [entries[k]] && marked[..n] == marked[..k] + [marked[k]];
      WithoutAllNext(marked[..k], marked[k], ids);
      FilteredNext(entries[..k], keep, mark, WithoutAll(marked[..k], ids), entries[k]);
    }
  }

  lemma {:induction false} MarkedOne(entries: seq<CronEntry>, nextId: nat, now: int, values: seq<int>, k: nat)
    requires StoreOk(entries, nextId) && |values| == 5 && k < |entries|
    ensures Marked(entries, now, values)[k] == Remembering(now, values)(entries[k])
    ensures Marked(entries, now, values)[k].id == entries[k].id
  {
    hide IsDue, FiresNow, CronOk;
    assert entries[k] in entries;
    DueIff(entries[k], now, values);
  }

  /** A poll takes exactly the one-shots that fire out of the store, notes the instant with the other
      entries that fire, and changes neither the rest nor the order. */
  lemma {:induction false} PollLeaves(entries: seq<CronEntry>, nextId: nat, now: int, values: seq<int>)
    requires StoreOk(entries, nextId) && |values| == 5
    ensures Filtered(entries, Survives(now, values), Remembering(now, values), Polled(entries, now, values))
  {
    hide Filtered;
    PolledUpto(entries, nextId, now, values, |entries|);
    assert entries[..|entries|] == entries;
    var marked := Marked(entries, now, values);
    assert marked[..|marked|] == marked;
  }

  /** A deletion takes exactly the entries with that id out and keeps the order of the others. */
  lemma {:induction false} DeleteLeaves(entries: seq<CronEntry>, id: nat)
    ensures Filtered(entries, OtherThan(id), Itself(), Without(entries, id))
  {
    hide Filtered;
    if entries == [] {
      FilteredNothing(OtherThan(id), Itself<CronEntry>());
    } else {
      var n := |entries| - 1;
      DeleteLeaves(entries[..n], id);
      FilteredNext(entries[..n], OtherThan(id), Itself(), Without(entries[..n], id), entries[n]);
      assert entries == entries[..n] + [entries[n]];
    }
  }

  // ---------------------------------------------------------------- the parts of a field

  /** A number is a span of itself, two numbers joined by a dash are a span, a star is any value, and
      whatever can be read keeps its meaning with a step behind a slash, if that is a number. */
  lemma {:induction false} PartsRead(a: string, b: string, base: string, step: string)
    requires '/' !in a + b + base && '-' !in a
    ensures ParsePart("*") == Some(Star(None))
    ensures a != "*" && ParseInt(a).None? ==> ParsePart(a).None?
    ensures a != "*" && ParseInt(a).Some? ==>
              ParsePart(a) == Some(Span(ParseInt(a).value, ParseInt(a).value, false, None))
    ensures ParseInt(a).Some? && ParseInt(b).Some? ==>
              ParsePart(a + "-" + b) == Some(Span(ParseInt(a).value, ParseInt(b).value, true, None))
    ensures ParsePart(base).None? || ParseInt(step).None? ==> ParsePart(base + "/" + step).None?
    ensures ParsePart(base).Some? && ParseInt(step).Some? ==>
              ParsePart(base + "/" + step) == Some(ParsePart(base).value.(step := ParseInt(step)))
  {
    hide ParseInt, SplitOnce;
    NoCut("*", '/');
    NoCut(a, '/');
    NoCut(a, '-');
    NoCut(a + "-" + b, '/');
    assert (a + "-" + b)[|a|] == '-';
    CutFirst(a, '-', b);
    NoCut(base, '/');
    CutFirst(base, '/', step);
  }

  // ---------------------------------------------------------------- plain expressions

  lemma {:induction false} DecimalField(n: nat)
    ensures forall lo, hi :: FieldOk(Decimal(n), lo, hi) <==> n < 0x8000_0000 && lo <= n <= hi
    ensures forall v :: FieldDenotes(Decimal(n), v) <==> n < 0x8000_0000 && v == n
  {
    hide Split, Trim, ParseInt, ParsePart, Digits, Decimal;
    var s := Decimal(n);
    DecimalReadsBack(n);
    assert s[0] in s && s[|s| - 1] in s;
    IntsRead(s);
    NoSeparator(s, ',');
    DigitsTrimmed(s);
    PartsRead(s, "", "", "");
    var p := ParsePart(s);
    assert p == if n < 0x8000_0000 then Some(Span(n, n, false, None)) else None;
  }

  lemma {:induction false} DigitsTrimmed(s: string)
    requires s != "" && !IsSpace(s[0]) && !IsSpace(s[|s| - 1])
    ensures Trim(s) == s
  {
  }

  function FiveFields(m: nat, h: nat, d: nat, mo: nat, w: nat): string {
    Decimal(m) + " " + Decimal(h) + " " + Decimal(d) + " " + Decimal(mo) + " " + Decimal(w)
  }

  lemma {:induction false} DecimalWord(n: nat, before: string)
    ensures Words(before + " " + Decimal(n)) == Words(before) + [Decimal(n)]
    ensures Words(Decimal(n)) == [Decimal(n)]
  {
    hide Words, Decimal, Digits;
    DecimalReadsBack(n);
    OneWord(Decimal(n));
    WordsApart(before, ' ', Decimal(n));
  }

  lemma {:induction false} FiveWords(m: nat, h: nat, d: nat, mo: nat, w: nat)
    ensures Words(Trim(FiveFields(m, h, d, mo, w))) == [Decimal(m), Decimal(h), Decimal(d), Decimal(mo), Decimal(w)]
  {
    hide Words, Decimal, Digits, Trim;
    DecimalReadsBack(m);
    DecimalReadsBack(w);
    var s := FiveFields(m, h, d, mo, w);
    assert s[0] == Decimal(m)[0] && s[0] in Decimal(m);
    assert s[|s| - 1] == Decimal(w)[|Decimal(w)| - 1] && s[|s| - 1] in Decimal(w);
    DigitsTrimmed(s);
    DecimalWord(h, Decimal(m));
    DecimalWord(m, "");
    DecimalWord(d, Decimal(m) + " " + Decimal(h));
    DecimalWord(mo, Decimal(m) + " " + Decimal(h) + " " + Decimal(d));
    DecimalWord(w, Decimal(m) + " " + Decimal(h) + " " + Decimal(d) + " " + Decimal(mo));
  }

  /** Written out, read and matched: five plain numbers are accepted exactly if they are a minute, an
      hour, a day of the month, a month and a day of the week, and then they match exactly those. */
  lemma {:induction false} PlainExpression(m: nat, h: nat, d: nat, mo: nat, w: nat)
    ensures CronOk(FiveFields(m, h, d, mo, w)) <==>
            m <= 59 && h <= 23 && 1 <= d <= 31 && 1 <= mo <= 12 && w <= 6
    ensures CronOk(FiveFields(m, h, d, mo, w)) ==>
              forall values: seq<int> :: |values| == 5 ==>
                (CronDenotes(FiveFields(m, h, d, mo, w), values) <==> values == [m, h, d, mo, w])
  {
    hide Words, Decimal, Trim, FieldOk, FieldDenotes, FiveFields;
    FiveWords(m, h, d, mo, w);
    DecimalField(m);
    DecimalField(h);
    DecimalField(d);
    DecimalField(mo);
    DecimalField(w);
    var words := Words(Trim(FiveFields(m, h, d, mo, w)));
    assert words[0] == Decimal(m) && words[1] == Decimal(h) && words[2] == Decimal(d);
    assert words[3] == Decimal(mo) && words[4] == Decimal(w);
  }
}
