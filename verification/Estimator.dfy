/**
 The bounded estimator refines an unbounded one: over any sequence of deliveries and
 compactions, the ledger that remembers 4096 hashes and one retention period of events
 reports what a ledger that forgets nothing would report.
 */
module Estimator {
  import opened Common
  import opened Windows
  import opened Ledger

  /**
   A usage record as handleUsage sees it (`price` is None for an unpriced model), or an unblock's
   or a start's compaction. The cutoff is the time of the entry less the retention then configured.
   */
  datatype Entry =
    | Delivery(hash: string, at: Time, price: Option<int>, model: string, cutoff: Time)
    | Compaction(cutoff: Time)

  datatype Book = Book(events: seq<CreditEvent>, hashes: seq<string>)

  /** The bounded ledger. */
  function Enter(book: Book, entry: Entry): Book {
    match entry
    case Compaction(cutoff) => Book(After(book.events, cutoff), Newest(book.hashes))
    case Delivery(hash, at, price, model, cutoff) =>
      if hash in book.hashes then book
      else if price.None? then book.(hashes := Newest(book.hashes + [hash]))
      else Book(After(Record(book.events, CreditEvent(at, price.value, model)), cutoff),
                Newest(Newest(book.hashes + [hash])))
  }

  function EnterAll(entries: seq<Entry>): Book {
    if entries == [] then Book([], []) else Enter(EnterAll(entries[..|entries| - 1]), entries[|entries| - 1])
  }

  /** The hashes delivered so far, each once, in order of first delivery. */
  function Delivered(entries: seq<Entry>): seq<string> {
    if entries == [] then []
    else
      var before, last := Delivered(entries[..|entries| - 1]), entries[|entries| - 1];
      if last.Delivery? && last.hash !in before then before + [last.hash] else before
  }

  /** The prices of the distinct records dated in (from, to]: the first delivery of each counts. */
  function Ideal(entries: seq<Entry>, from: Time, to: Time): int {
    if entries == [] then 0
    else
      var init, last := entries[..|entries| - 1], entries[|entries| - 1];
      Ideal(init, from, to) + if last.Delivery? && last.hash !in Delivered(init) then Priced(last, from, to) else 0
  }

  function Priced(entry: Entry, from: Time, to: Time): int
    requires entry.Delivery?
  {
    if entry.price.Some? && from < entry.at <= to then entry.price.value else 0
  }

  /** No record is delivered again after 4096 newer hashes. */
  ghost predicate Prompt(entries: seq<Entry>) {
    entries == [] ||
    var init, last := entries[..|entries| - 1], entries[|entries| - 1];
    Prompt(init) && (last.Delivery? && last.hash in Delivered(init) ==> last.hash in Newest(Delivered(init)))
  }

  ghost predicate ValidEntry(e: Entry) {
    e.Delivery? && e.price.Some? ==> 0 <= e.price.value <= MAX_INT64
  }

  /** Prices are those of estimateUsageCredits. */
  ghost predicate WellFormed(entries: seq<Entry>) {
    forall i | 0 <= i < |entries| :: ValidEntry(entries[i])
  }

  /** No compaction reached beyond `from`. */
  ghost predicate Retains(entries: seq<Entry>, from: Time) {
    forall i | 0 <= i < |entries| :: entries[i].cutoff <= from
  }

  lemma NewestTwice(hashes: seq<string>, hash: string)
    ensures Newest(Newest(hashes)) == Newest(hashes)
    ensures Newest(Newest(hashes) + [hash]) == Newest(hashes + [hash])
  {
    if |hashes| > MAX_DEDUP_HASHES {
      assert (Newest(hashes) + [hash])[1..] == (hashes + [hash])[|hashes| - MAX_DEDUP_HASHES + 1..];
    }
  }

  lemma {:induction false} HashesAreNewest(entries: seq<Entry>)
    requires Prompt(entries)
    ensures EnterAll(entries).hashes == Newest(Delivered(entries))
  {
    if entries != [] {
      var init, last := entries[..|entries| - 1], entries[|entries| - 1];
      HashesAreNewest(init);
      NewestTwice(Delivered(init), if last.Delivery? then last.hash else "");
      if last.Delivery? && last.hash !in Delivered(init) {
        assert last.hash !in Newest(Delivered(init));
        NewestTwice(Delivered(init) + [last.hash], "");
      }
    }
  }

  lemma RecordKeeps(events: seq<CreditEvent>, event: CreditEvent, cutoff: Time)
    requires Sorted(events) && Positive(events) && event.microcredits <= MAX_INT64
    ensures Sorted(After(Record(events, event), cutoff)) && Positive(After(Record(events, event), cutoff))
  {
    InsertKeepsSorted(events, event);
  }

  lemma {:induction false} BookSorted(entries: seq<Entry>)
    requires WellFormed(entries)
    ensures Sorted(EnterAll(entries).events) && Positive(EnterAll(entries).events)
  {
    if entries != [] {
      var init, last := entries[..|entries| - 1], entries[|entries| - 1];
      BookSorted(init);
      if last.Delivery? && last.price.Some? {
        RecordKeeps(EnterAll(init).events, CreditEvent(last.at, last.price.value, last.model), last.cutoff);
      }
    }
  }

  /** One more entry changes a window by its price, exactly when the bounded ledger has not seen its hash. */
  lemma EnterSum(book: Book, entry: Entry, from: Time, to: Time)
    requires entry.cutoff <= from && ValidEntry(entry)
    ensures Sum(Enter(book, entry).events, from, to) == Sum(book.events, from, to)
      + if entry.Delivery? && entry.hash !in book.hashes then Priced(entry, from, to) else 0
  {
    match entry
    case Compaction(cutoff) =>
      CompactionInvisible(book.events, cutoff, from, to);
    case Delivery(hash, at, price, model, cutoff) =>
      if price.Some? {
        var event := CreditEvent(at, price.value, model);
        CompactionInvisible(Record(book.events, event), cutoff, from, to);
        SumInsert(book.events, event, from, to);
      }
  }

  lemma {:induction false} BookMatchesIdeal(entries: seq<Entry>, from: Time, to: Time)
    requires Prompt(entries) && WellFormed(entries) && Retains(entries, from)
    ensures Sum(EnterAll(entries).events, from, to) == Ideal(entries, from, to)
  {
    if entries != [] {
      var init, last := entries[..|entries| - 1], entries[|entries| - 1];
      BookMatchesIdeal(init, from, to);
      HashesAreNewest(init);
      EnterSum(EnterAll(init), last, from, to);
    }
  }

  /**
   With retentions above one week, and as long as no record is redelivered after 4096 newer
   hashes, either window reports at every later time the saturated sum of the prices of the
   distinct records inside it.
   */
  lemma BoundedRefinesUnbounded(entries: seq<Entry>, now: Time, duration: int)
    requires Prompt(entries) && WellFormed(entries) && Retains(entries, now - WEEKLY_WINDOW)
      && duration <= WEEKLY_WINDOW
    ensures Consumed(EnterAll(entries).events, now, duration) == Min(MAX_INT64, Ideal(entries, now - duration, now))
    ensures Sorted(EnterAll(entries).events) && Positive(EnterAll(entries).events)
  {
    BookMatchesIdeal(entries, now - duration, now);
    BookSorted(entries);
  }

  // ---------------------------------------------------------------- redelivery

  /**
   The redelivery hypothesis is exact: after a run that satisfies it, a repeated record that
   costs something is counted once if its hash is among the newest 4096, and otherwise twice.
   */
  lemma RepeatCountedOnceIff(entries: seq<Entry>, repeat: Entry, from: Time, to: Time)
    requires Prompt(entries) && WellFormed(entries) && ValidEntry(repeat) && Retains(entries, from)
      && repeat.cutoff <= from
    requires repeat.Delivery? && repeat.hash in Delivered(entries)
    ensures Sum(EnterAll(entries + [repeat]).events, from, to) == Ideal(entries + [repeat], from, to)
      + if repeat.hash in Newest(Delivered(entries)) then 0 else Priced(repeat, from, to)
  {
    var all := entries + [repeat];
    assert all[..|all| - 1] == entries && all[|entries|] == repeat;
    BookMatchesIdeal(entries, from, to);
    HashesAreNewest(entries);
    EnterSum(EnterAll(entries), repeat, from, to);
  }

  function HexDigitOf(d: int): char
    requires 0 <= d < 16
  {
    if d < 10 then '0' + d as char else 'a' + (d - 10) as char
  }

  function Hex(i: nat, digits: nat): string {
    if digits == 0 then "" else Hex(i / 16, digits - 1) + [HexDigitOf(i % 16)]
  }

  predicate Fits(i: nat, digits: nat) {
    if digits == 0 then i == 0 else Fits(i / 16, digits - 1)
  }

  lemma {:induction false} HexDiffers(i: nat, j: nat, digits: nat)
    requires i != j && Fits(i, digits) && Fits(j, digits)
    ensures |Hex(i, digits)| == |Hex(j, digits)| == digits && Hex(i, digits) != Hex(j, digits)
  {
    HexLength(i, digits);
    HexLength(j, digits);
    if i % 16 == j % 16 {
      HexDiffers(i / 16, j / 16, digits - 1);
      assert Hex(i, digits)[..digits - 1] == Hex(i / 16, digits - 1);
      assert Hex(j, digits)[..digits - 1] == Hex(j / 16, digits - 1);
    } else {
      assert Hex(i, digits)[digits - 1] != Hex(j, digits)[digits - 1];
    }
  }

  lemma {:induction false} HexLength(i: nat, digits: nat)
    ensures |Hex(i, digits)| == digits
  {
    if digits > 0 {
      HexLength(i / 16, digits - 1);
    }
  }

  lemma {:induction false} ZeroFits(digits: nat)
    ensures Fits(0, digits)
  {
    if digits > 0 {
      ZeroFits(digits - 1);
    }
  }

  lemma SmallFits(i: nat)
    requires i < 65_536
    ensures Fits(i, 64)
  {
    var a, b, c := i / 16, i / 16 / 16, i / 16 / 16 / 16;
    assert c / 16 == 0;
    ZeroFits(60);
    assert Fits(c, 61) && Fits(b, 62) && Fits(a, 63);
  }

  /** The digest that spells a number. */
  function HashOf(i: nat): string {
    Hex(i, 64)
  }

  lemma HashesDiffer(i: nat, j: nat)
    requires i < j < 65_536
    ensures HashOf(i) != HashOf(j)
  {
    SmallFits(i);
    SmallFits(j);
    HexDiffers(i, j, 64);
  }

  /** So many distinct records, all of one date and price. */
  function Burst(n: nat, at: Time, price: int, model: string, cutoff: Time): seq<Entry> {
    seq(n, i requires 0 <= i < n => Delivery(HashOf(i), at, Some(price), model, cutoff))
  }

  lemma {:induction false} BurstDelivered(n: nat, at: Time, price: int, model: string, cutoff: Time)
    requires n <= 65_536
    ensures var entries := Burst(n, at, price, model, cutoff);
      Prompt(entries) && |Delivered(entries)| == n && forall i | 0 <= i < n :: Delivered(entries)[i] == HashOf(i)
  {
    if n > 0 {
      var entries, init := Burst(n, at, price, model, cutoff), Burst(n - 1, at, price, model, cutoff);
      assert entries[..n - 1] == init;
      BurstDelivered(n - 1, at, price, model, cutoff);
      forall i | 0 <= i < n - 1 ensures Delivered(init)[i] != HashOf(n - 1) {
        HashesDiffer(i, n - 1);
      }
    }
  }

  /** 4097 distinct records, and the first one again: it is counted twice. */
  lemma LateRepeatCountedTwice(at: Time, price: int, model: string, cutoff: Time, from: Time, to: Time)
    requires 0 < price <= MAX_INT64 && cutoff <= from < at <= to
    ensures var entries := Burst(MAX_DEDUP_HASHES + 1, at, price, model, cutoff);
      var all := entries + [entries[0]];
      && Prompt(entries) && WellFormed(entries) && entries[0].hash in Delivered(entries)
      && Sum(EnterAll(all).events, from, to) == Ideal(all, from, to) + price
  {
    var entries := Burst(MAX_DEDUP_HASHES + 1, at, price, model, cutoff);
    BurstDelivered(MAX_DEDUP_HASHES + 1, at, price, model, cutoff);
    var delivered := Delivered(entries);
    assert delivered[0] == entries[0].hash;
    forall i | 0 <= i < |Newest(delivered)| ensures Newest(delivered)[i] != HashOf(0) {
      HashesDiffer(0, i + 1);
    }
    RepeatCountedOnceIff(entries, entries[0], from, to);
  }
}
