/**
 The print-and-reschedule loop of jiq: every run of `jiq_print` adds one line to
 the page and asks to be run again until `len` has passed the limit. What the
 lines say and when a run happens is up to the environment.
 */
module Jiq {

  const PAGE_SIZE: nat := 4096
  const LIMIT: nat := PAGE_SIZE - 128
  const HEADER: string := "    time  delta preempt   pid cpu command\n"

  /** A seq_file of one page: `full` once something did not fit, and then for good. */
  datatype Page = Page(text: string, full: bool) {
    /** The field `count`. */
    function Count(): nat {
      if full then PAGE_SIZE else |text|
    }

    function Put(s: string): Page {
      if full || |text| + |s| >= PAGE_SIZE then this.(full := true) else this.(text := text + s)
    }
  }

  datatype Client = Client(len: nat, end: bool, jiffies: nat, page: Page)

  /** A run that prints: the header goes before the first line. */
  function Printed(header: string, c: Client, now: nat, line: string): Client {
    var page := if c.len == 0 then c.page.Put(header) else c.page;
    var page' := page.Put(line);
    Client(c.len + (if c.len == 0 then page.Count() else 0) + page'.Count(), c.end, now, page')
  }

  function Print(header: string, c: Client, now: nat, line: string): (Client, bool) {
    if c.len > LIMIT then (c.(end := true), false) else (Printed(header, c, now, line), true)
  }

  /** What a reader starts with. */
  function Fresh(now: nat): Client {
    Client(0, false, now, Page("", false))
  }

  /** The state after `n` runs that print. */
  ghost function Runs(h: string, now: nat -> nat, line: nat -> string, n: nat): Client {
    if n == 0 then Fresh(now(0)) else Printed(h, Runs(h, now, line, n - 1), now(n), line(n - 1))
  }

  /** The first `n` lines, one after the other. */
  ghost function Lines(line: nat -> string, n: nat): string {
    if n == 0 then "" else Lines(line, n - 1) + line(n - 1)
  }

  ghost predicate Short(line: nat -> string) {
    forall i :: |line(i)| < 128
  }

  ghost predicate AtLeast(line: nat -> string, least: nat) {
    forall i :: least <= |line(i)|
  }

  /** `n` runs happen one after the other, so none of them but the last can have passed the limit. */
  ghost predicate Happen(h: string, now: nat -> nat, line: nat -> string, n: nat) {
    forall i: nat {:trigger Runs(h, now, line, i)} :: i < n ==> Runs(h, now, line, i).len <= LIMIT
  }

  // ----- The page never overflows -----

  /** `len` is ahead of the page from the first run on, and grows by the page's count with every run. */
  lemma {:induction false} CountBelowLen(h: string, now: nat -> nat, line: nat -> string, n: nat)
    requires |h| < PAGE_SIZE
    ensures Runs(h, now, line, n).page.Count() <= Runs(h, now, line, n).len
    ensures 0 < n ==> |h| <= Runs(h, now, line, n).page.Count()
    ensures 0 < n ==> Runs(h, now, line, n).len >= Runs(h, now, line, n - 1).len + |h|
  {
    if n > 0 {
      CountBelowLen(h, now, line, n - 1);
    }
  }

  /** A line under 128 characters fits as long as the page is within the limit. */
  lemma LineFits(text: string, line: string)
    requires |text| <= LIMIT && |line| < 128
    ensures Page(text, false).Put(line) == Page(text + line, false) && |text + line| < PAGE_SIZE
  {
  }

  lemma FirstLine(h: string, c: Client, now: nat, line: string)
    requires |h| <= LIMIT && |line| < 128 && c.len == 0 && c.page == Page("", false)
    ensures Printed(h, c, now, line).page == Page(h + line, false) && |h + line| < PAGE_SIZE
  {
    assert "" + h == h;
    LineFits(h, line);
  }

  /** `page` holds all of `total`, or is full because that does not fit below its size. */
  ghost predicate Shows(page: Page, total: string) {
    && |page.text| < PAGE_SIZE
    && (page.full <==> |total| >= PAGE_SIZE)
    && (!page.full ==> page.text == total)
  }

  lemma PutShows(page: Page, total: string, line: string)
    requires Shows(page, total)
    ensures Shows(page.Put(line), total + line)
  {
  }

  /** The page is full exactly when the header and the lines do not fit, and else it holds them all. */
  lemma {:induction false} PageShows(h: string, now: nat -> nat, line: nat -> string, n: nat)
    requires 0 < |h| < PAGE_SIZE && 0 < n
    ensures Shows(Runs(h, now, line, n).page, h + Lines(line, n))
  {
    var before, text, last := Runs(h, now, line, n - 1), h + Lines(line, n - 1), line(n - 1);
    assert text + last == h + Lines(line, n);
    if n == 1 {
      assert "" + h == h && text == h;
      PutShows(Page("", false), "", h);
      PutShows(Page("", false).Put(h), h, last);
    } else {
      CountBelowLen(h, now, line, n - 1);
      PageShows(h, now, line, n - 1);
      PutShows(before.page, text, last);
    }
  }

  /** With short lines the page holds the header and every line, and has room left. */
  lemma {:induction false} PageHoldsLines(h: string, now: nat -> nat, line: nat -> string, n: nat)
    requires 0 < |h| <= LIMIT && Short(line) && Happen(h, now, line, n) && 0 < n
    ensures Runs(h, now, line, n).page == Page(h + Lines(line, n), false)
    ensures |h + Lines(line, n)| < PAGE_SIZE
  {
    var before, text, last := Runs(h, now, line, n - 1), h + Lines(line, n - 1), line(n - 1);
    assert text + last == h + Lines(line, n);
    if n == 1 {
      assert text == h;
      FirstLine(h, before, now(n), last);
    } else {
      PageHoldsLines(h, now, line, n - 1);
      CountBelowLen(h, now, line, n - 1);
      LineFits(text, last);
    }
  }

  /** The counts of the page after each of the first `n` runs, added up. */
  ghost function Counts(h: string, now: nat -> nat, line: nat -> string, n: nat): nat {
    if n == 0 then 0 else Counts(h, now, line, n - 1) + Runs(h, now, line, n).page.Count()
  }

  /** `len` is the header's length and the cumulative count of the page once for every run. */
  lemma {:induction false} LenIsSum(h: string, now: nat -> nat, line: nat -> string, n: nat)
    requires 0 < |h| < PAGE_SIZE && 0 < n
    ensures Runs(h, now, line, n).len == |h| + Counts(h, now, line, n)
    ensures Runs(h, now, line, n).jiffies == now(n) && !Runs(h, now, line, n).end
  {
    CountBelowLen(h, now, line, n - 1);
    if n > 1 {
      LenIsSum(h, now, line, n - 1);
    } else {
      assert "" + h == h;
      assert Counts(h, now, line, 0) == 0;
    }
  }

  // ----- How many runs there are -----

  lemma {:induction false} LinesLength(line: nat -> string, least: nat, n: nat)
    requires AtLeast(line, least)
    ensures least * n <= |Lines(line, n)|
  {
    if n > 0 {
      LinesLength(line, least, n - 1);
      assert least * n == least * (n - 1) + least;
    }
  }

  /** Twice what `len` is at least after `n` runs with a header of `h` characters. */
  function Twice(h: nat, least: nat, n: nat): nat {
    2 * (n + 1) * h + least * (n * (n + 1))
  }

  lemma TwiceGrows(h: nat, least: nat, n: nat)
    requires 0 < n
    ensures Twice(h, least, n) == Twice(h, least, n - 1) + 2 * (h + least * n)
  {
    assert n * (n + 1) == (n - 1) * n + 2 * n;
    assert least * (n * (n + 1)) == least * ((n - 1) * n) + 2 * (least * n);
  }

  /** As long as the page is not full, whatever the lines. */
  lemma {:induction false} LenGrowsQuadratically(h: string, now: nat -> nat, line: nat -> string, least: nat, n: nat)
    requires 0 < |h| < PAGE_SIZE && AtLeast(line, least) && 0 < n && !Runs(h, now, line, n).page.full
    ensures Twice(|h|, least, n) <= 2 * Runs(h, now, line, n).len
  {
    TwiceGrows(|h|, least, n);
    PageShows(h, now, line, n);
    LinesLength(line, least, n);
    if n > 1 {
      PageShows(h, now, line, n - 1);
      CountBelowLen(h, now, line, n - 1);
      LenGrowsQuadratically(h, now, line, least, n - 1);
    } else {
      assert Twice(|h|, least, 0) == 2 * |h|;
    }
  }

  /** `k` printing runs of lines of at least `least` characters need `k*h + least*k*(k-1)/2` to be within the limit. */
  lemma FewRuns(h: string, now: nat -> nat, line: nat -> string, least: nat, k: nat)
    requires 0 < |h| < PAGE_SIZE && AtLeast(line, least) && Happen(h, now, line, k) && 2 <= k
    ensures 2 * k * |h| + least * ((k - 1) * k) <= 2 * LIMIT
  {
    assert Runs(h, now, line, k - 1).len <= LIMIT;
    CountBelowLen(h, now, line, k - 1);
    LenGrowsQuadratically(h, now, line, least, k - 1);
  }

  // ----- The loop -----

  class ClientData {
    const header: string
    var len: nat
    var end: bool
    var jiffies: nat
    var page: Page

    function Value(): Client
      reads this
    {
      Client(len, end, jiffies, page)
    }

    /** `len` is ahead of the page, which holds the header as soon as anything has been printed. */
    ghost predicate Valid()
      reads this
    {
      && 0 < |header| < PAGE_SIZE
      && page.Count() <= len && (0 < len ==> |header| <= page.Count())
    }

    constructor (now: nat)
      ensures Valid() && header == HEADER && Value() == Fresh(now)
    {
      header, len, end, jiffies, page := HEADER, 0, false, now, Page("", false);
    }

    /**
     `jiq_print`; returns whether it is to be run again. A run either prints, with
     `len` growing by the count of the page, which is at least the header's length
     so that there is an end to it, or has passed the limit and tells the reader;
     it never takes anything back.
     */
    method JiqPrint(now: nat, line: string) returns (again: bool)
      requires Valid()
      modifies this
      ensures Valid()
      ensures again <==> old(len) <= LIMIT
      ensures again ==> len == old(len) + (if old(len) == 0 then |header| else 0) + page.Count()
      ensures again ==> len >= old(len) + |header| && end == old(end) && jiffies == now
      ensures var text := old(page).text + (if old(len) == 0 then header else "") + line;
        again && !old(page).full ==> if |text| < PAGE_SIZE then page == Page(text, false) else page.full
      ensures !again ==> end && len == old(len) && page == old(page) && jiffies == old(jiffies)
      ensures old(page).text <= page.text && (old(page).full ==> page.full)
      ensures (Value(), again) == Print(header, old(Value()), now, line)
    {
      var n := len;
      if n > LIMIT {
        end := true;
        return false;
      }
      if n == 0 {
        page := page.Put(header);
        n := page.Count();
      } else {
        n := 0;
      }
      page := page.Put(line);
      n := n + page.Count();
      len := len + n;
      jiffies := now;
      again := true;
    }

    /**
     A work item or tasklet that reschedules itself as long as `jiq_print` asks
     for it: it stops, the reader is told, and every run but the last printed.
     */
    method Reschedule(now: nat -> nat, line: nat -> string) returns (k: nat)
      requires Valid() && Value() == Fresh(now(0))
      modifies this
      ensures end && len > LIMIT
      ensures 0 < k && Happen(header, now, line, k) && Value() == Runs(header, now, line, k).(end := true)
    {
      k := 0;
      var again := true;
      while again
        invariant Valid() && Happen(header, now, line, k)
        invariant again ==> Value() == Runs(header, now, line, k)
        invariant !again ==> 0 < k && Value() == Runs(header, now, line, k).(end := true) && LIMIT < len
        decreases again, LIMIT + 1 - len
      {
        again := JiqPrint(now(k + 1), line(k));
        if again {
          k := k + 1;
        }
      }
    }
  }
}
