/**
 * The bulk writer shared by the enrichers: records are appended to a bulk body as an
 * action line and a document line, and the body is PUT whenever it already holds
 * `max_items` records before the next one is added, and once more at the end.
 */
module Bulk {
  import opened Results
  import opened Text
  import opened Chunking

  /** One record of a bulk body: the text of its `_id` and its JSON serialization. */
  datatype Entry = Entry(id: string, doc: string)

  /** `'{"index" : {"_id" : "%s" } }' % id`. */
  function ActionLine(id: string): string {
    "{\"index\" : {\"_id\" : \"" + id + "\" } }"
  }

  /** The two lines one record adds to the body. */
  function Render(e: Entry): string {
    ActionLine(e.id) + "\n" + e.doc + "\n"
  }

  /** A bulk body, built as the loop builds it: each record's lines appended in turn. */
  function Payload(b: seq<Entry>): string
    decreases |b|
  {
    if b == [] then "" else Payload(b[..|b| - 1]) + Render(b[|b| - 1])
  }

  /** The bodies of a sequence of batches. */
  function Payloads(bs: seq<seq<Entry>>): (r: seq<string>)
    ensures |r| == |bs|
    ensures forall i :: 0 <= i < |bs| ==> r[i] == Payload(bs[i])
  {
    seq(|bs|, i requires 0 <= i < |bs| => Payload(bs[i]))
  }

  /**
   * The records of each PUT. With max_items >= 1 the records are cut into batches of
   * max_items, and no records still give one (empty) PUT; with max_items <= 0 the body is
   * flushed before every record, so an empty PUT comes first and then one per record.
   */
  function Batches<T>(s: seq<T>, maxItems: int): (r: seq<seq<T>>)
    ensures |r| >= 1
  {
    if maxItems >= 1 then (if s == [] then [[]] else Chunks(s, maxItems as nat))
    else [[]] + Chunks(s, 1)
  }

  /** One more record joins the last batch while it holds fewer than max_items, and opens a new batch otherwise. */
  lemma BatchesSnoc<T>(s: seq<T>, maxItems: int, e: T)
    ensures var b := Batches(s, maxItems);
      Batches(s + [e], maxItems) ==
        if |b[|b| - 1]| >= maxItems then b + [[e]] else b[..|b| - 1] + [b[|b| - 1] + [e]]
  {
    if maxItems >= 1 {
      ChunksSnoc(s, maxItems as nat, e);
    } else {
      ChunksSnoc(s, 1, e);
      if s == [] {
        assert Batches(s, maxItems) == [[]];
      } else {
        ChunksSizes(s, 1);
        var c := Chunks(s, 1);
        assert Batches(s, maxItems) == [[]] + c;
        assert |c[|c| - 1]| >= 1;
        assert [[]] + (c + [[e]]) == ([[]] + c) + [[e]];
      }
    }
  }

  /** The batches hold every record once, in input order. */
  lemma BatchesFlatten<T>(s: seq<T>, maxItems: int)
    ensures Flatten(Batches(s, maxItems)) == s
  {
    if maxItems >= 1 {
      if s != [] {
        ChunksFlatten(s, maxItems as nat);
      }
    } else {
      ChunksFlatten(s, 1);
      assert Flatten([[]] + Chunks(s, 1)) == [] + Flatten(Chunks(s, 1));
    }
  }

  /**
   * With max_items >= 1 no PUT carries more than max_items records, every PUT but the last
   * carries exactly max_items, and when there are records no PUT is empty.
   */
  lemma BatchesBounded<T>(s: seq<T>, maxItems: int)
    requires maxItems >= 1
    ensures forall k :: 0 <= k < |Batches(s, maxItems)| ==> |Batches(s, maxItems)[k]| <= maxItems
    ensures forall k :: 0 <= k < |Batches(s, maxItems)| - 1 ==> |Batches(s, maxItems)[k]| == maxItems
    ensures s != [] ==> forall k :: 0 <= k < |Batches(s, maxItems)| ==> |Batches(s, maxItems)[k]| >= 1
  {
    if s != [] {
      ChunksSizes(s, maxItems as nat);
    }
  }

  /** With max_items >= 1 and some records there are ceil(n / max_items) PUTs. */
  lemma BatchesCount<T>(s: seq<T>, maxItems: int)
    requires maxItems >= 1 && s != []
    ensures |Batches(s, maxItems)| == (|s| + maxItems - 1) / maxItems
  {
    ChunksCount(s, maxItems as nat);
  }

  /** No records still give one PUT, with an empty body. */
  lemma BatchesOfNothing<T>(maxItems: int)
    ensures Batches<T>([], maxItems) == [[]]
  {
  }

  /** Exactly max_items records go in one PUT; one more record needs a second PUT. */
  lemma BatchesAtThreshold<T>(s: seq<T>, maxItems: int)
    requires maxItems >= 1 && (|s| == maxItems || |s| == maxItems + 1)
    ensures |s| == maxItems ==> Batches(s, maxItems) == [s]
    ensures |s| == maxItems + 1 ==> Batches(s, maxItems) == [s[..maxItems], s[maxItems..]]
  {
    if |s| == maxItems + 1 {
      assert Chunks(s[maxItems..], maxItems as nat) == [s[maxItems..]];
    }
  }

  /** With max_items <= 0 an empty PUT comes first, then one PUT per record. */
  lemma BatchesNonPositive<T>(s: seq<T>, maxItems: int)
    requires maxItems <= 0
    ensures |Batches(s, maxItems)| == |s| + 1
    ensures Batches(s, maxItems)[0] == []
    ensures forall k :: 0 <= k < |s| ==> Batches(s, maxItems)[k + 1] == [s[k]]
  {
    ChunksCount(s, 1);
    OneByOne(s);
  }

  lemma {:induction false} OneByOne<T>(s: seq<T>)
    ensures |Chunks(s, 1)| == |s|
    ensures forall k :: 0 <= k < |s| ==> Chunks(s, 1)[k] == [s[k]]
    decreases |s|
  {
    if |s| > 1 {
      OneByOne(s[1..]);
    }
  }

  /** The first record that failed, or the number of records when none did. */
  function FirstFailure(rs: seq<Result<Entry>>): (r: nat)
    ensures r <= |rs|
    ensures forall k :: 0 <= k < r ==> rs[k].Ok?
    ensures r < |rs| ==> rs[r].Err?
    decreases |rs|
  {
    if rs == [] then 0 else if rs[0].Err? then 0 else 1 + FirstFailure(rs[1..])
  }

  /** The records of a sequence in which none failed. */
  function Values(rs: seq<Result<Entry>>, n: nat): (r: seq<Entry>)
    requires n <= |rs| && forall k :: 0 <= k < n ==> rs[k].Ok?
    ensures |r| == n && forall k :: 0 <= k < n ==> r[k] == rs[k].value
  {
    seq(n, k requires 0 <= k < n => rs[k].value)
  }

  /**
   * What the bulk loop PUTs, and the exception it ends with. Without failures the PUTs
   * are the bodies of the batches. At the first failing item the loop has already PUT
   * every batch before it, including the last one when that one was full.
   */
  function BulkOutcome(records: seq<Result<Entry>>, maxItems: int): (seq<string>, Option<Fault>) {
    var n := FirstFailure(records);
    Outcome(Values(records, n), maxItems, if n == |records| then None else Some(records[n].fault))
  }

  /** The PUTs of the records `done` written before the loop ended, normally or with `fault`. */
  function Outcome(done: seq<Entry>, maxItems: int, fault: Option<Fault>): (seq<string>, Option<Fault>) {
    var b := Batches(done, maxItems);
    if fault.None? then (Payloads(b), None)
    else if |b[|b| - 1]| >= maxItems then (Payloads(b), fault)
    else (Payloads(b[..|b| - 1]), fault)
  }

  /**
   * The bulk loop. `records` holds each item's record, or the exception its enrichment
   * raised; the loop flushes before adding a record when the body already holds
   * max_items records, and PUTs the last body after the loop.
   */
  method WriteBulk(records: seq<Result<Entry>>, maxItems: int) returns (puts: seq<string>, fault: Option<Fault>)
    ensures (puts, fault) == BulkOutcome(records, maxItems)
  {
    var current := 0;
    var bulkJson := "";
    puts := [];
    ghost var done: seq<Entry> := [];
    var k := 0;
    while k < |records|
      invariant k == |done| <= |records|
      invariant OkPrefix(records, done)
      invariant Buffered(done, maxItems, puts, bulkJson, current)
    {
      ghost var puts0, bulkJson0, current0 := puts, bulkJson, current;
      if current >= maxItems {
        puts := puts + [bulkJson];
        bulkJson := "";
        current := 0;
      }
      if records[k].Err? {
        FailureOutcome(records, done, maxItems, puts0, bulkJson0, current0);
        return puts, Some(records[k].fault);
      }
      var e := records[k].value;
      AddStep(done, maxItems, puts0, bulkJson0, current0, e);
      bulkJson := bulkJson + Render(e);
      current := current + 1;
      done := done + [e];
      k := k + 1;
    }
    SuccessOutcome(records, done, maxItems, puts, bulkJson, current);
    puts := puts + [bulkJson];
    fault := None;
  }

  /** The first records of `records` all succeeded, with the values `done`. */
  predicate OkPrefix(records: seq<Result<Entry>>, done: seq<Entry>) {
    |done| <= |records| && forall j :: 0 <= j < |done| ==> records[j] == Ok(done[j])
  }

  lemma OkPrefixValues(records: seq<Result<Entry>>, done: seq<Entry>)
    requires OkPrefix(records, done)
    ensures forall j :: 0 <= j < |done| ==> records[j].Ok?
    ensures Values(records, |done|) == done
  {
  }

  /** One pass of the loop over a record that did not fail keeps the loop state. */
  lemma AddStep(done: seq<Entry>, maxItems: int, puts: seq<string>, bulkJson: string, current: int, e: Entry)
    requires Buffered(done, maxItems, puts, bulkJson, current)
    ensures var full := current >= maxItems;
      Buffered(done + [e], maxItems,
        if full then puts + [bulkJson] else puts,
        (if full then "" else bulkJson) + Render(e),
        (if full then 0 else current) + 1)
  {
    AddRecord(done, maxItems, puts, bulkJson, current >= maxItems, e);
  }

  lemma FailureOutcome(records: seq<Result<Entry>>, done: seq<Entry>, maxItems: int, puts: seq<string>, bulkJson: string, current: int)
    requires OkPrefix(records, done) && |done| < |records| && records[|done|].Err?
    requires Buffered(done, maxItems, puts, bulkJson, current)
    ensures BulkOutcome(records, maxItems) ==
      (if current >= maxItems then puts + [bulkJson] else puts, Some(records[|done|].fault))
  {
    OkPrefixValues(records, done);
    assert FirstFailure(records) == |done|;
    FlushAll(done, maxItems, puts, bulkJson);
  }

  lemma SuccessOutcome(records: seq<Result<Entry>>, done: seq<Entry>, maxItems: int, puts: seq<string>, bulkJson: string, current: int)
    requires OkPrefix(records, done) && |done| == |records|
    requires Buffered(done, maxItems, puts, bulkJson, current)
    ensures BulkOutcome(records, maxItems) == (puts + [bulkJson], None)
  {
    OkPrefixValues(records, done);
    assert FirstFailure(records) == |records|;
    FlushAll(done, maxItems, puts, bulkJson);
  }

  /** The loop state for the records `done` written so far: the full batches PUT, the last one pending. */
  predicate Buffered(done: seq<Entry>, maxItems: int, puts: seq<string>, bulkJson: string, current: int) {
    var b := Batches(done, maxItems);
    puts == Payloads(b[..|b| - 1]) && bulkJson == Payload(b[|b| - 1]) && current == |b[|b| - 1]|
  }

  /** Flushing the pending body completes the PUTs of all batches so far. */
  lemma FlushAll(done: seq<Entry>, maxItems: int, puts: seq<string>, bulkJson: string)
    requires Buffered(done, maxItems, puts, bulkJson, |Batches(done, maxItems)[|Batches(done, maxItems)| - 1]|)
    ensures var b := Batches(done, maxItems);
      puts + [bulkJson] == Payloads(b) && puts == Payloads(b[..|b| - 1])
  {
    var b := Batches(done, maxItems);
    AppendToLast(b, Entry("", ""));
  }

  /** One pass that adds record e, after flushing the pending body if it was full. */
  lemma AddRecord(done: seq<Entry>, maxItems: int, puts: seq<string>, bulkJson: string, full: bool, e: Entry)
    requires var b := Batches(done, maxItems);
      Buffered(done, maxItems, puts, bulkJson, |b[|b| - 1]|) && full == (|b[|b| - 1]| >= maxItems)
    ensures var b := Batches(done, maxItems);
      if full then Buffered(done + [e], maxItems, puts + [bulkJson], "" + Render(e), 1)
      else Buffered(done + [e], maxItems, puts, bulkJson + Render(e), |b[|b| - 1]| + 1)
  {
    var b := Batches(done, maxItems);
    BatchesSnoc(done, maxItems, e);
    AppendToLast(b, e);
  }

  lemma AppendToLast(b: seq<seq<Entry>>, e: Entry)
    requires |b| >= 1
    ensures Payloads(b) == Payloads(b[..|b| - 1]) + [Payload(b[|b| - 1])]
    ensures Payload(b[|b| - 1] + [e]) == Payload(b[|b| - 1]) + Render(e)
    ensures Payload([e]) == Render(e)
    ensures (b + [[e]])[..|b|] == b
    ensures (b[..|b| - 1] + [b[|b| - 1] + [e]])[..|b| - 1] == b[..|b| - 1]
  {
    var last := b[|b| - 1];
    assert (last + [e])[..|last|] == last;
    assert [e][..0] == [];
  }

  /** The lines of a bulk body: an action line and a document line per record. */
  function Lines(b: seq<Entry>): seq<string>
    decreases |b|
  {
    if b == [] then [] else Lines(b[..|b| - 1]) + [ActionLine(b[|b| - 1].id), b[|b| - 1].doc]
  }

  /** A body is its lines, each ended by a newline. */
  lemma {:induction false} PayloadIsLines(b: seq<Entry>)
    ensures Payload(b) == Join(Lines(b) + [""], "\n")
    decreases |b|
  {
    if b != [] {
      var init, e := b[..|b| - 1], b[|b| - 1];
      PayloadIsLines(init);
      var l := Lines(init);
      assert Lines(b) + [""] == l + [ActionLine(e.id), e.doc, ""];
      JoinTwoMore(l, ActionLine(e.id), e.doc);
    }
  }

  /** Two more newline-ended lines after a newline-ended text. */
  lemma JoinTwoMore(l: seq<string>, a: string, d: string)
    ensures Join(l + [a, d, ""], "\n") == Join(l + [""], "\n") + (a + "\n" + d + "\n")
  {
    var nl := "\n";
    if l == [] {
      assert l + [a, d, ""] == [a, d, ""];
      assert [a, d, ""][1..] == [d, ""];
      assert [d, ""][1..] == [""];
        assert Join([a, d, ""], nl) == a + nl + Join([d, ""], nl);
      assert Join([d, ""], nl) == d + nl + Join([""], nl);
      assert d + nl + "" == d + nl;
    } else {
      JoinSnoc(l, nl, "");
      JoinSnoc(l, nl, a);
      assert l + [a, d] == (l + [a]) + [d];
      JoinSnoc(l + [a], nl, d);
      assert l + [a, d, ""] == (l + [a, d]) + [""];
      JoinSnoc(l + [a, d], nl, "");
      var j := Join(l, nl);
      assert j + nl + a + nl + d + nl + "" == j + nl + "" + (a + nl + d + nl);
    }
  }

  /** Ids and documents without newlines. */
  predicate OneLine(b: seq<Entry>) {
    forall k :: 0 <= k < |b| ==> '\n' !in b[k].id && '\n' !in b[k].doc
  }

  lemma {:induction false} LinesOneLine(b: seq<Entry>)
    requires OneLine(b)
    ensures forall k :: 0 <= k < |Lines(b)| ==> '\n' !in Lines(b)[k]
    decreases |b|
  {
    if b != [] {
      LinesOneLine(b[..|b| - 1]);
      assert '\n' !in ActionLine(b[|b| - 1].id);
    }
  }

  /**
   * When no id or document holds a newline, splitting a body at its newlines gives back
   * the action and document lines, in record order, and a final empty piece.
   */
  lemma PayloadSplits(b: seq<Entry>)
    requires OneLine(b)
    ensures Split(Payload(b), "\n") == Lines(b) + [""]
  {
    PayloadIsLines(b);
    LinesOneLine(b);
    JoinSplit(Lines(b) + [""], '\n');
  }

  /** Each record contributes its own action line, then its document line. */
  lemma {:induction false} LinesOfRecords(b: seq<Entry>)
    ensures |Lines(b)| == 2 * |b|
    ensures forall k :: 0 <= k < |b| ==> Lines(b)[2 * k] == ActionLine(b[k].id) && Lines(b)[2 * k + 1] == b[k].doc
    decreases |b|
  {
    if b != [] {
      LinesOfRecords(b[..|b| - 1]);
    }
  }

  /** How many records a loop that stops at the first failure makes: up to and including that one. */
  function Written(rs: seq<Result<Entry>>): (n: nat)
    ensures n <= |rs|
  {
    if FirstFailure(rs) < |rs| then FirstFailure(rs) + 1 else |rs|
  }

  /** Without a failing record the first failure is past the end. */
  lemma AllOkNoFailure(rs: seq<Result<Entry>>)
    requires forall i :: 0 <= i < |rs| ==> rs[i].Ok?
    ensures FirstFailure(rs) == |rs|
  {
  }

  /** The first failing record is the first whose predecessors all succeeded. */
  lemma FirstFailureAt(rs: seq<Result<Entry>>, k: nat)
    requires k < |rs| && rs[k].Err? && forall j :: 0 <= j < k ==> rs[j].Ok?
    ensures FirstFailure(rs) == k
  {
  }

  /** What is PUT depends only on the records up to the first failure. */
  lemma BulkOutcomeStopsAtFailure(rs: seq<Result<Entry>>, maxItems: int)
    requires FirstFailure(rs) < |rs|
    ensures BulkOutcome(rs[..Written(rs)], maxItems) == BulkOutcome(rs, maxItems)
  {
    var n := FirstFailure(rs);
    var p := rs[..n + 1];
    assert forall k :: 0 <= k <= n ==> p[k] == rs[k];
    FirstFailureAt(p, n);
    ValuesAgree(p, rs, n);
  }

  lemma ValuesAgree(rs: seq<Result<Entry>>, qs: seq<Result<Entry>>, n: nat)
    requires n <= |rs| && n <= |qs| && forall k :: 0 <= k < n ==> rs[k] == qs[k] && rs[k].Ok?
    ensures Values(rs, n) == Values(qs, n)
  {
  }
}
