/** The process that writes queued messages to log files. */
module Dlp {
  import opened Bytes
  import opened PacketLog
  import opened Decimals

  /** What `MAX_FILE_SIZE` is once it has been stored in a `size_t`: `1 << 31` is a negative
      `int`, so the limit is not the 2^32 bytes its comment names. */
  const MAX_FILE_SIZE: nat := 0x1_0000_0000_0000_0000 - 0x8000_0000

  function Concat(ms: seq<seq<byte>>): seq<byte> {
    if |ms| == 0 then [] else Concat(ms[..|ms| - 1]) + ms[|ms| - 1]
  }

  /** The messages of the first `n` blocks. */
  function Flatten(blocks: seq<seq<seq<byte>>>, n: nat): seq<seq<byte>>
    requires n <= |blocks|
  {
    if n == 0 then [] else Flatten(blocks, n - 1) + blocks[n - 1]
  }

  /** The messages received while logging is enabled. */
  function Kept(ms: seq<seq<byte>>, enabled: seq<bool>): seq<seq<byte>>
    requires |enabled| == |ms|
  {
    if |ms| == 0 then []
    else
      var n := |ms| - 1;
      Kept(ms[..n], enabled[..n]) + if enabled[n] then [ms[n]] else []
  }

  lemma KeptOneMore(ms: seq<seq<byte>>, enabled: seq<bool>, i: nat)
    requires |enabled| == |ms| && i < |ms|
    ensures Kept(ms[..i + 1], enabled[..i + 1]) == Kept(ms[..i], enabled[..i]) + if enabled[i] then [ms[i]] else []
  {
    assert ms[..i + 1][..i] == ms[..i] && enabled[..i + 1][..i] == enabled[..i];
  }

  /** How many of the first `n` messages come while logging is enabled. */
  function EnabledBefore(enabled: seq<bool>, n: nat): nat
    requires n <= |enabled|
  {
    if n == 0 then 0 else EnabledBefore(enabled, n - 1) + if enabled[n - 1] then 1 else 0
  }

  lemma {:induction false} EnabledInFront(enabled: seq<bool>, n: nat, i: nat)
    requires i <= n <= |enabled|
    ensures EnabledBefore(enabled[..n], i) == EnabledBefore(enabled, i)
  {
    if i != 0 {
      EnabledInFront(enabled, n, i - 1);
    }
  }

  /** Every message that comes while logging is enabled is kept, after those before it, and no other
      message is. */
  lemma {:induction false} KeepsEnabled(ms: seq<seq<byte>>, enabled: seq<bool>, i: nat)
    requires |enabled| == |ms| && i <= |ms|
    ensures |Kept(ms, enabled)| == EnabledBefore(enabled, |ms|)
    ensures i < |ms| && enabled[i] ==>
      var at := EnabledBefore(enabled, i); at < |Kept(ms, enabled)| && Kept(ms, enabled)[at] == ms[i]
  {
    if |ms| > 0 {
      var n := |ms| - 1;
      KeepsEnabled(ms[..n], enabled[..n], if i < n then i else n);
      EnabledInFront(enabled, n, n);
      if i < n {
        EnabledInFront(enabled, n, i);
      }
    }
  }

  lemma ConcatOneMore(ms: seq<seq<byte>>, m: seq<byte>)
    ensures Concat(ms + [m]) == Concat(ms) + m
  {
  }

  lemma {:induction false} FlattenOneMore(blocks: seq<seq<seq<byte>>>, b: seq<seq<byte>>, n: nat)
    requires n <= |blocks|
    ensures Flatten(blocks + [b], n) == Flatten(blocks, n)
  {
    if n != 0 {
      FlattenOneMore(blocks, b, n - 1);
    }
  }

  /** A file is full once its messages reach the limit, and is closed at that very message. */
  predicate JustFull(block: seq<seq<byte>>, max: nat) {
    |block| > 0 && |Concat(block)| >= max && |Concat(block[..|block| - 1])| < max
  }

  /** The message that fills a file is the last one in it. */
  lemma FillsUp(block: seq<seq<byte>>, m: seq<byte>, max: nat)
    requires |Concat(block)| < max
    ensures Concat(block + [m]) == Concat(block) + m
    ensures |Concat(block)| + |m| >= max ==> JustFull(block + [m], max)
  {
    ConcatOneMore(block, m);
    assert (block + [m])[..|block|] == block;
  }

  /** What is kept up to message `i` is what was kept before the file, then what is in it. */
  predicate Holds(ms: seq<seq<byte>>, enabled: seq<bool>, from: nat, i: nat, block: seq<seq<byte>>) {
    from <= i <= |ms| == |enabled| && Kept(ms[..i], enabled[..i]) == Kept(ms[..from], enabled[..from]) + block
  }

  lemma HoldsOneMore(ms: seq<seq<byte>>, enabled: seq<bool>, from: nat, i: nat, block: seq<seq<byte>>)
    requires i < |ms| && Holds(ms, enabled, from, i, block)
    ensures Holds(ms, enabled, from, i + 1, if enabled[i] then block + [ms[i]] else block)
  {
    KeptOneMore(ms, enabled, i);
  }

  /** The files hold whole messages, all those kept, in order. */
  ghost predicate Splits(files: seq<seq<byte>>, blocks: seq<seq<seq<byte>>>, kept: seq<seq<byte>>, max: nat) {
    && |files| == |blocks| > 0 && Flatten(blocks, |blocks|) == kept
    && (forall k :: 0 <= k < |files| ==> files[k] == Concat(blocks[k]))
    && (forall k :: 0 <= k < |files| - 1 ==> JustFull(blocks[k], max))
    && |Concat(blocks[|blocks| - 1])| < max
  }

  /** One file: messages are appended until the limit is reached or none is left. */
  method FillFile(ms: seq<seq<byte>>, enabled: seq<bool>, max: nat, from: nat)
    returns (file: seq<byte>, i: nat, ghost block: seq<seq<byte>>)
    requires |enabled| == |ms| && from <= |ms| && max > 0
    ensures from <= i <= |ms| && file == Concat(block)
    ensures Holds(ms, enabled, from, i, block)
    ensures |file| >= max ==> JustFull(block, max) && i > from
    ensures |file| < max ==> i == |ms|
  {
    var writes := 0;
    file, i, block := [], from, [];
    while writes < max && i < |ms|
      invariant from <= i <= |ms| && file == Concat(block) && writes == |file|
      invariant Holds(ms, enabled, from, i, block)
      invariant writes >= max ==> JustFull(block, max) && i > from
    {
      HoldsOneMore(ms, enabled, from, i, block);
      if enabled[i] {
        FillsUp(block, ms[i], max);
        file := file + ms[i];
        writes := writes + |ms[i]|;
        block := block + [ms[i]];
      }
      i := i + 1;
    }
  }

  /** `read_queue` for the binary queue, until it waits for a message that never comes: a file
      is opened, filled to the limit and closed, then the next one. */
  method ReadQueue(ms: seq<seq<byte>>, enabled: seq<bool>, max: nat) returns (files: seq<seq<byte>>)
    requires |enabled| == |ms| && max > 0
    ensures exists blocks :: Splits(files, blocks, Kept(ms, enabled), max)
  {
    var i := 0;
    files := [];
    ghost var blocks: seq<seq<seq<byte>>> := [];
    var waiting := false;
    assert ms[..0] == [] && enabled[..0] == [];
    while !waiting
      invariant i <= |ms| && |files| == |blocks| && (waiting ==> i == |ms| && |files| > 0)
      invariant Flatten(blocks, |blocks|) == Kept(ms[..i], enabled[..i])
      invariant forall k :: 0 <= k < |files| ==> files[k] == Concat(blocks[k])
      invariant forall k :: 0 <= k < |files| ==> (waiting && k == |files| - 1) || JustFull(blocks[k], max)
      invariant waiting ==> |Concat(blocks[|blocks| - 1])| < max
      decreases !waiting, |ms| - i
    {
      ghost var block;
      var file;
      file, i, block := FillFile(ms, enabled, max, i);
      FlattenOneMore(blocks, block, |blocks|);
      files, blocks := files + [file], blocks + [block];
      waiting := |file| < max;
    }
    assert ms[..|ms|] == ms && enabled[..|ms|] == enabled;
    assert Splits(files, blocks, Kept(ms, enabled), max);
  }

  /** The queue of telemetry packets, with the limit it really has. */
  method ReadTelemetryQueue(ms: seq<seq<byte>>, enabled: seq<bool>) returns (files: seq<seq<byte>>)
    requires |enabled| == |ms|
    ensures exists blocks :: Splits(files, blocks, Kept(ms, enabled), MAX_FILE_SIZE)
  {
    files := ReadQueue(ms, enabled, MAX_FILE_SIZE);
  }

  // ---------------------------------------------------------------- reading the files again

  /** What the first `n` files give, one after another. */
  function ParseFiles(files: seq<seq<byte>>, n: nat): seq<Record>
    requires n <= |files|
  {
    if n == 0 then [] else ParseFiles(files, n - 1) + ParseAll(files[n - 1])
  }

  function Encodings(rs: seq<Record>): (ms: seq<seq<byte>>)
    ensures |ms| == |rs| && forall k :: 0 <= k < |rs| ==> ms[k] == Encode(rs[k])
  {
    seq(|rs|, k requires 0 <= k < |rs| => Encode(rs[k]))
  }

  predicate AllLoggable(rs: seq<Record>) {
    forall k :: 0 <= k < |rs| ==> Loggable(rs[k])
  }

  lemma {:induction false} ConcatOfEncodings(rs: seq<Record>)
    ensures Concat(Encodings(rs)) == EncodeAll(rs)
  {
    if |rs| > 0 {
      var n := |rs| - 1;
      ConcatOfEncodings(rs[..n]);
      assert Encodings(rs)[..n] == Encodings(rs[..n]);
      EncodeAllOneMore(rs[..n], rs[n]);
      assert rs[..n] + [rs[n]] == rs;
    }
  }

  lemma {:induction false} EncodeAllOneMore(rs: seq<Record>, r: Record)
    ensures EncodeAll(rs + [r]) == EncodeAll(rs) + Encode(r)
  {
    if |rs| > 0 {
      EncodeAllOneMore(rs[1..], r);
      assert (rs + [r])[1..] == rs[1..] + [r];
    } else {
      assert [] + [r] == [r] && [r][1..] == [];
    }
  }

  /** A file made of whole encoded records gives those records. */
  lemma FileGivesRecords(file: seq<byte>, rs: seq<Record>)
    requires AllLoggable(rs) && file == Concat(Encodings(rs))
    ensures ParseAll(file) == rs
  {
    ConcatOfEncodings(rs);
    ParseAllOfEncodeAll(rs);
  }

  lemma {:induction false} FlattenGrows(blocks: seq<seq<seq<byte>>>, k: nat, n: nat)
    requires k <= n <= |blocks|
    ensures Flatten(blocks, k) <= Flatten(blocks, n)
  {
    if k < n {
      FlattenGrows(blocks, k, n - 1);
    }
  }

  /** The records from the first block to the `k`-th, and those of the `k`-th. */
  function Cut(blocks: seq<seq<seq<byte>>>, k: nat): nat
    requires k <= |blocks|
  {
    |Flatten(blocks, k)|
  }

  /** Reading the file gives the records of the `k`-th block. */
  predicate Gives(file: seq<byte>, blocks: seq<seq<seq<byte>>>, k: nat, rs: seq<Record>)
    requires k < |blocks|
  {
    Cut(blocks, k) <= Cut(blocks, k + 1) <= |rs| && ParseAll(file) == rs[Cut(blocks, k)..Cut(blocks, k + 1)]
  }

  lemma SliceBehind(all: seq<seq<byte>>, front: seq<seq<byte>>, block: seq<seq<byte>>)
    requires front + block <= all
    ensures all[|front|..|front| + |block|] == block
  {
  }

  lemma EncodingsOfSlice(rs: seq<Record>, a: nat, b: nat)
    requires a <= b <= |rs|
    ensures Encodings(rs)[a..b] == Encodings(rs[a..b])
  {
  }

  lemma SliceOfEncodings(rs: seq<Record>, front: seq<seq<byte>>, block: seq<seq<byte>>, a: nat, b: nat)
    requires front + block <= Encodings(rs) && a == |front| && b == a + |block|
    ensures b <= |rs| && block == Encodings(rs[a..b])
  {
    SliceBehind(Encodings(rs), front, block);
    EncodingsOfSlice(rs, a, b);
  }

  lemma UpToBlock(blocks: seq<seq<seq<byte>>>, k: nat)
    requires k < |blocks|
    ensures Flatten(blocks, k) + blocks[k] <= Flatten(blocks, |blocks|)
    ensures Cut(blocks, k + 1) == Cut(blocks, k) + |blocks[k]|
  {
    FlattenGrows(blocks, k + 1, |blocks|);
  }

  /** The `k`-th block holds the encodings of its records. */
  lemma BlockAt(blocks: seq<seq<seq<byte>>>, k: nat, rs: seq<Record>)
    requires k < |blocks| && Flatten(blocks, |blocks|) == Encodings(rs)
    ensures Cut(blocks, k) <= Cut(blocks, k + 1) <= |rs|
    ensures blocks[k] == Encodings(rs[Cut(blocks, k)..Cut(blocks, k + 1)])
  {
    UpToBlock(blocks, k);
    SliceOfEncodings(rs, Flatten(blocks, k), blocks[k], Cut(blocks, k), Cut(blocks, k + 1));
  }

  lemma FileAt(file: seq<byte>, blocks: seq<seq<seq<byte>>>, k: nat, rs: seq<Record>)
    requires k < |blocks| && file == Concat(blocks[k]) && AllLoggable(rs) && Flatten(blocks, |blocks|) == Encodings(rs)
    ensures Gives(file, blocks, k, rs)
  {
    BlockAt(blocks, k, rs);
    FileGivesRecords(file, rs[Cut(blocks, k)..Cut(blocks, k + 1)]);
  }

  lemma OneFileMore(files: seq<seq<byte>>, rs: seq<Record>, n: nat, a: nat, b: nat)
    requires n < |files| && a <= b <= |rs| && ParseFiles(files, n) == rs[..a] && ParseAll(files[n]) == rs[a..b]
    ensures ParseFiles(files, n + 1) == rs[..b]
  {
  }

  lemma FilesJoin(files: seq<seq<byte>>, blocks: seq<seq<seq<byte>>>, rs: seq<Record>, n: nat)
    requires n <= |files| == |blocks|
    requires forall k :: 0 <= k < |files| ==> Gives(files[k], blocks, k, rs)
    ensures Cut(blocks, n) <= |rs| && ParseFiles(files, n) == rs[..Cut(blocks, n)]
  {
    for k := 0 to n
      invariant Cut(blocks, k) <= |rs| && ParseFiles(files, k) == rs[..Cut(blocks, k)]
    {
      assert Gives(files[k], blocks, k, rs);
      OneFileMore(files, rs, k, Cut(blocks, k), Cut(blocks, k + 1));
    }
  }

  /** The log round trip: records sent through the queue while logging is enabled are recovered,
      all of them and in order, from the files in index order, however the files were split. */
  lemma LogRoundTrip(rs: seq<Record>, files: seq<seq<byte>>, blocks: seq<seq<seq<byte>>>, max: nat)
    requires AllLoggable(rs) && Splits(files, blocks, Encodings(rs), max)
    ensures ParseFiles(files, |files|) == rs
  {
    forall k | 0 <= k < |files|
      ensures Gives(files[k], blocks, k, rs)
    {
      FileAt(files[k], blocks, k, rs);
    }
    FilesJoin(files, blocks, rs, |files|);
  }

  lemma JoinRecords(a: seq<Record>, b: seq<Record>, c: seq<Record>)
    ensures (a + b) + c == a + (b + c)
  {
  }

  /** Repeated `retrieve_record` until it fails. */
  method ReadFile(bytes: seq<byte>) returns (rs: seq<Record>)
    ensures rs == ParseAll(bytes)
  {
    rs := [];
    var f := new Stream(bytes);
    var more := true;
    while more
      invariant more ==> f.good && ParseAll(bytes) == rs + ParseAll(f.left)
      invariant !more ==> ParseAll(bytes) == rs
      decreases more, |f.left|
    {
      ParseAllStep(f.left);
      var r := RetrieveRecord(f);
      if r.Some? {
        JoinRecords(rs, [r.value], ParseAll(f.left));
        rs := rs + [r.value];
      } else {
        more := false;
      }
    }
  }

  method ReadFiles(files: seq<seq<byte>>) returns (rs: seq<Record>)
    ensures rs == ParseFiles(files, |files|)
  {
    rs := [];
    for k := 0 to |files|
      invariant rs == ParseFiles(files, k)
    {
      var read := ReadFile(files[k]);
      rs := rs + read;
    }
  }

  /** Write a list of records, then read them all back. */
  method WriteAndReadBack(rs: seq<Record>, max: nat) returns (back: seq<Record>)
    requires AllLoggable(rs) && max > 0
    ensures back == rs
  {
    var ms := Encodings(rs);
    var enabled := seq(|ms|, _ => true);
    AllKept(ms, enabled);
    var files := ReadQueue(ms, enabled, max);
    ghost var blocks :| Splits(files, blocks, Kept(ms, enabled), max);
    LogRoundTrip(rs, files, blocks, max);
    back := ReadFiles(files);
  }

  lemma {:induction false} AllKept(ms: seq<seq<byte>>, enabled: seq<bool>)
    requires |enabled| == |ms| && forall k :: 0 <= k < |ms| ==> enabled[k]
    ensures Kept(ms, enabled) == ms
  {
    if |ms| > 0 {
      AllKept(ms[..|ms| - 1], enabled[..|ms| - 1]);
    }
  }

  // ---------------------------------------------------------------- file names

  /** The name of the `k`-th file. */
  function FileName(base: string, k: nat): string {
    if k == 0 then base else base + Decimal(k)
  }

  lemma DecimalsDiffer(j: nat, k: nat)
    requires j != k
    ensures Decimal(j) != Decimal(k)
  {
    NumberOfDecimal(j);
    NumberOfDecimal(k);
  }

  lemma Suffix(base: string, s: string)
    ensures (base + s)[|base|..] == s
  {
  }

  /** No file is opened, and truncated, twice. */
  lemma FileNamesDiffer(base: string, j: nat, k: nat)
    requires j != k
    ensures FileName(base, j) != FileName(base, k)
  {
    DecimalsDiffer(j, k);
    Suffix(base, Decimal(j));
    Suffix(base, Decimal(k));
  }
}
