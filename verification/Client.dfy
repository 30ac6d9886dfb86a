/** The browser uploader: how it cuts a blob into parts, reads it, and reports progress. */
module Client {
  import opened Wrappers
  import opened Content
  import opened Storage
  import opened Hashing
  import opened Protocol
  import opened PartListing
  import Progress
  import Operations

  const READ_SIZE := 512 * 1024
  const PART_SIZE := 64 * 1024 * 1024

  /** The largest size that a JavaScript number holds exactly, plus one. */
  const MAX_SAFE := 0x20_0000_0000_0000

  // ----------------------------------------------------------- division and ceil

  function CeilDiv(n: nat, d: nat): nat
    requires d > 0
  {
    (n + d - 1) / d
  }

  function Ceil(q: real): int { -((-q).Floor) }

  /**
   `q` is a double that division of two exact integers may round to: exact when
   the quotient is an integer, and otherwise off by at most half a unit in the
   last of 53 bits.
   */
  ghost predicate Rounded(q: real, n: nat, d: nat)
    requires d > 0
  {
    && (n % d == 0 ==> q == (n / d) as real)
    && (q - n as real / d as real) * MAX_SAFE as real <= n as real / d as real
    && (n as real / d as real - q) * MAX_SAFE as real <= n as real / d as real
  }

  lemma Multiples(e: int, d: nat)
    ensures e >= 1 ==> e * d >= d
    ensures e <= -1 ==> e * d <= 0 - d
  {
  }

  /** Division with remainder is unique. */
  lemma DivUnique(n: nat, d: nat, k: nat, f: nat)
    requires f < d && n == k * d + f
    ensures n / d == k && n % d == f
  {
    var e := k - n / d;
    assert e * d == n % d - f by {
      assert n == (n / d) * d + n % d;
    }
    Multiples(e, d);
  }

  lemma LessByFactor(x: real, y: real, d: nat)
    requires d > 0 && x * d as real < y * d as real
    ensures x < y
  {
  }

  lemma CeilOf(q: real, k: int)
    requires k as real < q <= (k + 1) as real
    ensures Ceil(q) == k + 1
  {
  }

  lemma CeilDivOf(n: nat, d: nat)
    requires d > 0
    ensures CeilDiv(n, d) == if n % d == 0 then n / d else n / d + 1
    ensures n == (n / d) * d + n % d
  {
    var k, f := n / d, n % d;
    if f == 0 {
      DivUnique(n + d - 1, d, k, d - 1);
    } else {
      assert n + d - 1 == (k + 1) * d + (f - 1);
      DivUnique(n + d - 1, d, k + 1, f - 1);
    }
  }

  /** Rounding the quotient never changes its ceiling, for every exactly represented size. */
  lemma CeilSurvivesRounding(q: real, n: nat, d: nat)
    requires 0 < d && n < MAX_SAFE && Rounded(q, n, d)
    ensures Ceil(q) == CeilDiv(n, d)
  {
    var k := n / d;
    CeilDivOf(n, d);
    if n % d != 0 {
      RoundedBetween(q, n, d, k, n % d);
      CeilOf(q, k);
    }
  }

  lemma QuotientTimes(n: nat, d: nat)
    requires d > 0
    ensures (n as real / d as real) * d as real == n as real
  {
  }

  lemma RealProduct(k: int, d: int)
    ensures k as real * d as real == (k * d) as real
  {
  }

  lemma RoundedBetween(q: real, n: nat, d: nat, k: nat, f: nat)
    requires 0 < d && n < MAX_SAFE && Rounded(q, n, d) && n == k * d + f && 0 < f < d
    ensures k as real < q < (k + 1) as real
  {
    hide Rounded;
    RoundedProduct(q, n, d);
    NextMultiple(k, d);
    LessThanQuotient(k, q, n, d);
    MoreThanQuotient(k + 1, q, n, d);
  }

  lemma RoundedProduct(q: real, n: nat, d: nat)
    requires 0 < d && n < MAX_SAFE && Rounded(q, n, d)
    ensures n as real - 1.0 < q * d as real < n as real + 1.0
  {
    QuotientTimes(n, d);
    RoundingError(q, n as real / d as real, n, d);
  }

  lemma NextMultiple(k: nat, d: nat)
    ensures (k + 1) * d == k * d + d
  {
  }

  lemma LessThanQuotient(k: nat, q: real, n: nat, d: nat)
    requires 0 < d && n as real - 1.0 < q * d as real && k * d + 1 <= n
    ensures k as real < q
  {
    RealProduct(k, d);
    LessByFactor(k as real, q, d);
  }

  lemma MoreThanQuotient(k: nat, q: real, n: nat, d: nat)
    requires 0 < d && q * d as real < n as real + 1.0 && n + 1 <= k * d
    ensures q < k as real
  {
    RealProduct(k, d);
    LessByFactor(q, k as real, d);
  }

  lemma Scaled(x: real, y: real, d: real)
    requires x <= y && d >= 0.0
    ensures x * d <= y * d
  {
  }

  lemma Regrouped(x: real, m: real, d: real)
    ensures (x * m) * d == (x * d) * m
  {
  }

  lemma Spread(x: real, y: real, d: real)
    ensures (x - y) * d == x * d - y * d
  {
  }

  /** The error of a rounded quotient is less than one d-th. */
  lemma RoundingError(q: real, exact: real, n: nat, d: nat)
    requires 0 < d && n < MAX_SAFE && exact * d as real == n as real
    requires (q - exact) * MAX_SAFE as real <= exact && (exact - q) * MAX_SAFE as real <= exact
    ensures n as real - 1.0 < q * d as real < n as real + 1.0
  {
    var m, e := MAX_SAFE as real, d as real;
    Scaled((q - exact) * m, exact, e);
    Scaled((exact - q) * m, exact, e);
    Regrouped(q - exact, m, e);
    Regrouped(exact - q, m, e);
    Spread(q, exact, e);
    Spread(exact, q, e);
    BelowOne((q - exact) * e, n as real, m);
    BelowOne((exact - q) * e, n as real, m);
  }

  lemma BelowOne(x: real, n: real, m: real)
    requires x * m <= n < m && m > 0.0
    ensures x < 1.0
  {
    if x >= 1.0 {
      Scaled(1.0, x, m);
    }
  }

  // ----------------------------------------------------------------------- parts

  function PartSize(size: nat): (d: nat)
    ensures d >= PART_SIZE
  {
    if CeilDiv(size, MAX_PARTS) > PART_SIZE then CeilDiv(size, MAX_PARTS) else PART_SIZE
  }

  function PartCount(size: nat): nat {
    CeilDiv(size, PartSize(size))
  }

  /** `Blob.slice`, which clamps both ends. */
  function Slice(blob: Bytes, from: nat, to: nat): Bytes
    requires from <= to
  {
    blob[(if from <= |blob| then from else |blob|)..(if to <= |blob| then to else |blob|)]
  }

  /** The bytes sent as part number `index + 1`. */
  function PartAt(blob: Bytes, index: nat): Bytes {
    NextMultiple(index, PartSize(|blob|));
    Slice(blob, index * PartSize(|blob|), (index + 1) * PartSize(|blob|))
  }

  function Joined(blob: Bytes, count: nat): Bytes {
    if count == 0 then [] else Joined(blob, count - 1) + PartAt(blob, count - 1)
  }

  lemma CeilDivBounds(n: nat, d: nat)
    requires d > 0
    ensures n <= CeilDiv(n, d) * d < n + d
  {
    CeilDivOf(n, d);
    NextMultiple(n / d, d);
  }

  lemma FewerParts(n: nat, d: nat, m: nat)
    requires 0 < m && CeilDiv(n, m) <= d && 0 < d
    ensures CeilDiv(n, d) <= m
  {
    CeilDivBounds(n, m);
    CeilDivBounds(n, d);
    Factors(CeilDiv(n, m), d, m);
    if CeilDiv(n, d) > m {
      Factors(m + 1, CeilDiv(n, d), d);
      NextMultiple(m, d);
    }
  }

  lemma Factors(a: nat, b: nat, c: nat)
    requires a <= b
    ensures a * c <= b * c && c * a <= c * b
  {
  }

  lemma PartLies(size: nat, d: nat, index: nat)
    requires d > 0 && index < CeilDiv(size, d)
    ensures index * d < size
  {
    CeilDivBounds(size, d);
    Factors(index + 1, CeilDiv(size, d), d);
    NextMultiple(index, d);
  }

  lemma {:induction false} JoinedPrefix(blob: Bytes, count: nat)
    requires count <= PartCount(|blob|)
    ensures Joined(blob, count) == Slice(blob, 0, count * PartSize(|blob|))
  {
    hide CeilDiv, PartSize;
    if count > 0 {
      var d := PartSize(|blob|);
      JoinedPrefix(blob, count - 1);
      PartLies(|blob|, d, count - 1);
      NextMultiple(count - 1, d);
    }
  }

  lemma PartBounds(blob: Bytes, index: nat)
    requires index < PartCount(|blob|)
    ensures 0 < |PartAt(blob, index)| <= PartSize(|blob|)
    ensures index + 1 < PartCount(|blob|) ==> |PartAt(blob, index)| == PartSize(|blob|)
  {
    hide CeilDiv;
    PartLies(|blob|, PartSize(|blob|), index);
    NextMultiple(index, PartSize(|blob|));
    if index + 1 < PartCount(|blob|) {
      PartLies(|blob|, PartSize(|blob|), index + 1);
    }
  }

  /** The part size is the least, from 64 MiB on, that ten thousand parts can cover the blob with. */
  lemma PartSizeLeast(size: nat)
    ensures 64 * 1024 * 1024 <= PartSize(size) && size <= 10_000 * PartSize(size)
    ensures forall d | 64 * 1024 * 1024 <= d < PartSize(size) :: 10_000 * d < size
  {
    CeilDivBounds(size, MAX_PARTS);
  }

  /** And the parts are as few as that size allows. */
  lemma PartCountLeast(size: nat)
    ensures size <= PartCount(size) * PartSize(size)
    ensures forall n: nat | n < PartCount(size) :: n * PartSize(size) < size
  {
    hide CeilDiv, PartSize;
    CeilDivBounds(size, PartSize(size));
    forall n: nat | n < PartCount(size) ensures n * PartSize(size) < size {
      PartLies(size, PartSize(size), n);
    }
  }

  lemma PartCountBounds(size: nat)
    requires size > 0
    ensures 1 <= PartCount(size) <= MAX_PARTS && size <= PartCount(size) * PartSize(size)
  {
    hide CeilDiv;
    FewerParts(size, PartSize(size), MAX_PARTS);
    CeilDivBounds(size, PartSize(size));
  }

  /**
   For every nonempty blob the parts are nonempty, no larger than the part size,
   at most ten thousand, and in order they are the blob.
   */
  lemma PartsPartition(blob: Bytes)
    requires blob != []
    ensures 1 <= PartCount(|blob|) <= MAX_PARTS
    ensures forall i | 0 <= i < PartCount(|blob|) :: 0 < |PartAt(blob, i)| <= PartSize(|blob|)
    ensures forall i | 0 <= i < PartCount(|blob|) - 1 :: |PartAt(blob, i)| == PartSize(|blob|)
    ensures Joined(blob, PartCount(|blob|)) == blob
  {
    hide CeilDiv, PartSize, PartCount, PartAt;
    PartCountBounds(|blob|);
    JoinedPrefix(blob, PartCount(|blob|));
    forall i | 0 <= i < PartCount(|blob|)
      ensures 0 < |PartAt(blob, i)| <= PartSize(|blob|)
      ensures i + 1 < PartCount(|blob|) ==> |PartAt(blob, i)| == PartSize(|blob|)
    {
      PartBounds(blob, i);
    }
  }

  /**
   The server signs every part the client asks for, under its own number and checksum,
   for the upload that the pending row records.
   */
  lemma ServerSigns(env: Env, sh: Shared, pid: Pid, id: int, blob: Bytes, index: nat, cs: seq<Choice>)
    requires EnvOk(env) && env.kind.S3Kind? && blob != [] && index < PartCount(|blob|) && |cs| >= 3
    requires id in sh.rows && sh.rows[id].Pending() && sh.rows[id].upload.Some?
    ensures var row, crc := sh.rows[id], env.crc(PartAt(blob, index));
            var op := PresignPart(id, row.prefix, index + 1, crc);
            && First(op, sh.now) == Signing(PartGet(id, row.prefix, index + 1, crc))
            && Operations.Whole(env, sh, pid, op, cs).0.targets
               == sh.targets + {PartTarget(id, RowKey(env, id, row), row.upload.value, index + 1, crc, sh.now, sh.now,
                                           sh.now + env.ttl)}
  {
    hide Operations.Whole, PartAt, PartCount, RowKey;
    PartsPartition(blob);
    var crc := env.crc(PartAt(blob, index));
    assert IsLowerHex(crc, 16);
    Operations.PresignAlone(env, sh, pid, id, sh.rows[id].prefix, index + 1, crc, cs);
  }

  /** An upload that holds the client's parts, and nothing else. */
  ghost predicate HoldsParts(parts: map<int, Part>, blob: Bytes) {
    && (forall n :: n in parts <==> 1 <= n <= PartCount(|blob|))
    && (forall i | 0 <= i < PartCount(|blob|) :: parts[i + 1].body == PartAt(blob, i))
  }

  /** The `n` part numbers that follow `marker`. */
  function Following(marker: int, n: nat): seq<int> {
    seq(n, i requires 0 <= i < n => marker + 1 + i)
  }

  lemma {:induction false} AscendingCounts(parts: map<int, Part>, marker: int, n: int)
    requires forall k :: k in parts <==> 1 <= k <= n
    requires 0 <= marker <= n <= MAX_PARTS
    ensures Ascending(parts, marker) == Following(marker, n - marker)
    decreases MAX_PARTS - marker
  {
    if marker < n {
      AscendingCounts(parts, marker + 1, n);
      assert Following(marker, n - marker) == [marker + 1] + Following(marker + 1, n - marker - 1);
    } else {
      NothingAbove(parts, marker);
    }
  }

  lemma {:induction false} NothingAbove(parts: map<int, Part>, marker: int)
    requires forall k | marker < k <= MAX_PARTS :: k !in parts
    ensures Ascending(parts, marker) == []
    decreases MAX_PARTS - marker
  {
    if marker < MAX_PARTS {
      NothingAbove(parts, marker + 1);
    }
  }

  lemma {:induction false} ConcatJoins(parts: map<int, Part>, blob: Bytes, count: nat)
    requires HoldsParts(parts, blob) && count <= PartCount(|blob|)
    ensures AllIn(parts, Following(0, count)) && Concat(parts, Following(0, count)) == Joined(blob, count)
  {
    hide CeilDiv, PartSize, PartCount, PartAt;
    if count > 0 {
      ConcatJoins(parts, blob, count - 1);
      assert Following(0, count)[..count - 1] == Following(0, count - 1);
    }
  }

  /**
   From browser to server: an upload that received the client's parts would
   assemble to exactly the blob, so a finalizer left alone publishes it.
   */
  lemma UploadedPartsAssemble(env: Env, parts: map<int, Part>, blob: Bytes)
    requires blob != [] && HoldsParts(parts, blob)
    ensures AllIn(parts, Ascending(parts, 0)) && Concat(parts, Ascending(parts, 0)) == blob
    ensures Progress.WouldAssemble(env, parts, Declaration(|blob|, env.sha(blob), env.crc(blob)))
  {
    hide CeilDiv, PartCount, PartAt, Joined, Ascending, Concat;
    PartsPartition(blob);
    AscendingCounts(parts, 0, PartCount(|blob|));
    ConcatJoins(parts, blob, PartCount(|blob|));
  }

  // --------------------------------------------------------------------- reading

  /** How far the first `k` slices reach. */
  function Boundary(size: nat, k: nat): nat {
    if k * READ_SIZE <= size then k * READ_SIZE else size
  }

  /** The first `k` of these slices reach to the k-th boundary, for every `k`. */
  ghost predicate Reaches(slices: seq<Bytes>, size: nat) {
    forall k | 0 <= k <= |slices| :: |Body(slices[..k])| == Boundary(size, k)
  }

  lemma ReachesNext(slices: seq<Bytes>, slice: Bytes, size: nat)
    requires Reaches(slices, size) && |Body(slices)| + |slice| == Boundary(size, |slices| + 1)
    ensures Reaches(slices + [slice], size)
  {
    hide Boundary, Body;
    var longer := slices + [slice];
    forall k | 0 <= k <= |longer| ensures |Body(longer[..k])| == Boundary(size, k) {
      if k <= |slices| {
        assert longer[..k] == slices[..k];
      } else {
        assert longer[..k] == longer;
        BodyAppend(slices, slice);
      }
    }
  }

  lemma BodyAppend(slices: seq<Bytes>, slice: Bytes)
    ensures Body(slices + [slice]) == Body(slices) + slice
  {
    assert (slices + [slice])[..|slices|] == slices;
  }

  lemma SliceCount(size: nat, count: nat)
    requires size <= count * READ_SIZE && (count > 0 ==> (count - 1) * READ_SIZE < size)
    ensures count == CeilDiv(size, READ_SIZE)
  {
  }

  /** `read`: the blob in slices of half a mebibyte. */
  method Read(blob: Bytes) returns (slices: seq<Bytes>)
    ensures Body(slices) == blob
    ensures forall i | 0 <= i < |slices| :: 0 < |slices[i]| <= 512 * 1024
    ensures Reaches(slices, |blob|) && |slices| == CeilDiv(|blob|, READ_SIZE)
  {
    hide Reaches, CeilDiv;
    slices := [];
    var offset := 0;
    ReachesNothing(|blob|);
    while offset < |blob|
      invariant offset == |slices| * READ_SIZE && (offset > 0 ==> offset - READ_SIZE < |blob|)
      invariant Body(slices) == Slice(blob, 0, offset) && Reaches(slices, |blob|)
      invariant forall i | 0 <= i < |slices| :: 0 < |slices[i]| <= READ_SIZE
    {
      var slice := Slice(blob, offset, offset + READ_SIZE);
      assert (slices + [slice])[..|slices|] == slices;
      ReachesNext(slices, slice, |blob|);
      slices := slices + [slice];
      offset := offset + READ_SIZE;
    }
    SliceCount(|blob|, |slices|);
  }

  lemma ReachesNothing(size: nat)
    ensures Reaches([], size)
  {
  }

  lemma NothingRead<S>(h: Hash<S>)
    ensures Body([]) == [] && Absorb(h, h.start, []) == h.start
  {
  }

  /** The last of these reports that is no further than `at`. */
  function LastReport(reports: seq<nat>, at: nat): Option<nat> {
    if reports == [] then None
    else if reports[|reports| - 1] <= at then Some(reports[|reports| - 1])
    else LastReport(reports[..|reports| - 1], at)
  }

  /** At this point the percentage is the one last reported, or zero before any report. */
  predicate Current(percent: (nat, nat) -> int, reports: seq<nat>, at: nat, size: nat) {
    var last := LastReport(reports, at);
    percent(at, size) == if last.Some? then percent(last.value, size) else 0
  }

  lemma ReportAfter(reports: seq<nat>, next: nat, at: nat)
    requires at < next
    ensures LastReport(reports + [next], at) == LastReport(reports, at)
  {
    assert (reports + [next])[..|reports|] == reports;
  }

  lemma ReportNow(reports: seq<nat>, at: nat)
    requires forall i | 0 <= i < |reports| :: reports[i] <= at
    ensures LastReport(reports, at) == if reports == [] then None else Some(reports[|reports| - 1])
  {
  }

  /** What the reports of the first `k` slices, reaching to `loaded`, have in common. */
  ghost predicate Reporting(percent: (nat, nat) -> int, reports: seq<nat>, k: nat, loaded: nat, size: nat) {
    && (forall i, j | 0 <= i < j < |reports| :: reports[i] < reports[j])
    && (forall i | 0 <= i < |reports| :: 0 < reports[i] <= loaded)
    && (forall i | 0 < i < |reports| && reports[i] < size :: percent(reports[i], size) != percent(reports[i - 1], size))
    && (forall j | 0 < j <= k :: Boundary(size, j) <= loaded && Current(percent, reports, Boundary(size, j), size))
    && (loaded == size > 0 ==> reports != [] && reports[|reports| - 1] == size)
  }

  function Reported(percent: (nat, nat) -> int, reports: seq<nat>, size: nat): int {
    if reports == [] then 0 else percent(reports[|reports| - 1], size)
  }

  lemma ReportStep(percent: (nat, nat) -> int, reports: seq<nat>, k: nat, loaded: nat, next: nat, size: nat)
    requires Reporting(percent, reports, k, loaded, size) && loaded < next <= size && next == Boundary(size, k + 1)
    ensures var reported := percent(next, size) != Reported(percent, reports, size) || next == size;
            Reporting(percent, if reported then reports + [next] else reports, k + 1, next, size)
  {
    hide Boundary, LastReport;
    var reported := percent(next, size) != Reported(percent, reports, size) || next == size;
    var all := if reported then reports + [next] else reports;
    forall j | 0 < j <= k + 1 ensures Boundary(size, j) <= next && Current(percent, all, Boundary(size, j), size) {
      if j <= k {
        ReportAfter(reports, next, Boundary(size, j));
      } else {
        ReportNow(all, next);
      }
    }
  }

  /**
   `digest`: hashes the whole blob slice by slice.  At every slice boundary the
   percentage is the last one reported, so each change is reported where it happens;
   reports strictly grow, change the percentage and end at the whole blob.
   */
  method Digest<S, T>(sha: Hash<S>, crc: Hash<T>, blob: Bytes, percent: (nat, nat) -> int)
    returns (content: Declaration, reports: seq<nat>)
    ensures content == Declaration(|blob|, Sum(sha, blob), Sum(crc, blob))
    ensures forall i, j | 0 <= i < j < |reports| :: reports[i] < reports[j]
    ensures forall i | 0 <= i < |reports| :: reports[i] <= |blob|
    ensures forall i | 0 < i < |reports| - 1 :: percent(reports[i], |blob|) != percent(reports[i - 1], |blob|)
    ensures forall k | 0 < k <= CeilDiv(|blob|, READ_SIZE) :: Current(percent, reports, Boundary(|blob|, k), |blob|)
    ensures blob != [] ==> reports != [] && reports[|reports| - 1] == |blob|
  {
    hide Absorb, Body, Reporting, CeilDiv, Boundary, Current;
    var slices := Read(blob);
    NothingRead(sha);
    NothingRead(crc);
    NothingReported(percent, |blob|);
    var s, c := sha.start, crc.start;
    var loaded, reported := 0, 0;
    reports := [];
    for k := 0 to |slices|
      invariant var body := Body(slices[..k]);
                s == Absorb(sha, sha.start, body) && c == Absorb(crc, crc.start, body) && loaded == |body| <= |blob|
      invariant Reporting(percent, reports, k, loaded, |blob|) && reported == Reported(percent, reports, |blob|)
    {
      BodyNext(slices, k);
      AbsorbNext(sha, slices, k);
      AbsorbNext(crc, slices, k);
      BodyPrefix(slices, k + 1);
      ReportStep(percent, reports, k, loaded, loaded + |slices[k]|, |blob|);
      s, c, loaded := Absorb(sha, s, slices[k]), Absorb(crc, c, slices[k]), loaded + |slices[k]|;
      if percent(loaded, |blob|) != reported || loaded == |blob| {
        reported := percent(loaded, |blob|);
        reports := reports + [loaded];
      }
    }
    assert slices[..|slices|] == slices;
    AllReported(percent, reports, |slices|, |blob|);
    return Declaration(|blob|, sha.finish(s), crc.finish(c)), reports;
  }

  lemma NothingReported(percent: (nat, nat) -> int, size: nat)
    ensures Reporting(percent, [], 0, 0, size)
  {
  }

  lemma AllReported(percent: (nat, nat) -> int, reports: seq<nat>, k: nat, size: nat)
    requires Reporting(percent, reports, k, size, size)
    ensures forall i, j | 0 <= i < j < |reports| :: reports[i] < reports[j]
    ensures forall i | 0 <= i < |reports| :: reports[i] <= size
    ensures forall i | 0 < i < |reports| - 1 :: percent(reports[i], size) != percent(reports[i - 1], size)
    ensures forall j | 0 < j <= k :: Current(percent, reports, Boundary(size, j), size)
    ensures size > 0 ==> reports != [] && reports[|reports| - 1] == size
  {
  }

  // -------------------------------------------------------------------- progress

  function Total(loads: seq<nat>): nat {
    if loads == [] then 0 else Total(loads[..|loads| - 1]) + loads[|loads| - 1]
  }

  lemma {:induction false} TotalUpdate(loads: seq<nat>, i: nat, bytes: nat)
    requires i < |loads|
    ensures Total(loads[i := bytes]) == Total(loads) + bytes - loads[i]
  {
    var front := loads[..|loads| - 1];
    if i < |front| {
      TotalUpdate(front, i, bytes);
      assert loads[i := bytes][..|loads| - 1] == front[i := bytes];
    } else {
      assert loads[i := bytes][..|loads| - 1] == front;
    }
  }

  lemma {:induction false} TotalAtMost(loads: seq<nat>, sizes: seq<nat>)
    requires |loads| == |sizes| && forall i | 0 <= i < |loads| :: loads[i] <= sizes[i]
    ensures Total(loads) <= Total(sizes)
  {
    if loads != [] {
      TotalAtMost(loads[..|loads| - 1], sizes[..|sizes| - 1]);
    }
  }

  function Sizes(blob: Bytes, count: nat): seq<nat> {
    seq(count, i requires 0 <= i < count => |PartAt(blob, i)|)
  }

  lemma {:induction false} SizesTotal(blob: Bytes, count: nat)
    ensures Total(Sizes(blob, count)) == |Joined(blob, count)|
  {
    if count > 0 {
      SizesTotal(blob, count - 1);
      assert Sizes(blob, count)[..count - 1] == Sizes(blob, count - 1);
    } else {
      assert Sizes(blob, 0) == [];
    }
  }

  /** A callback of one part: bytes sent so far, a failed attempt, or success. */
  datatype Callback = Sent(part: nat, bytes: nat) | AttemptFailed(part: nat) | Succeeded(part: nat)

  ghost predicate ValidCallback(blob: Bytes, e: Callback) {
    e.part < PartCount(|blob|) && (e.Sent? ==> e.bytes <= |PartAt(blob, e.part)|)
  }

  /** What a part last reported: nothing yet, the bytes sent, or all of it. */
  function Latest(blob: Bytes, events: seq<Callback>, part: nat): nat {
    if events == [] then 0
    else
      var e := events[|events| - 1];
      if e.part != part then Latest(blob, events[..|events| - 1], part)
      else match e
        case Sent(_, bytes) => bytes
        case AttemptFailed(_) => 0
        case Succeeded(_) => |PartAt(blob, part)|
  }

  function AllLatest(blob: Bytes, events: seq<Callback>): seq<nat> {
    seq(PartCount(|blob|), i requires 0 <= i < PartCount(|blob|) => Latest(blob, events, i))
  }

  class Meter {
    const blob: Bytes
    var loaded: int
    var partLoaded: seq<nat>
    var reports: seq<int>

    constructor (blob: Bytes)
      ensures this.blob == blob && loaded == 0 && partLoaded == AllLatest(blob, []) && reports == []
    {
      this.blob := blob;
      loaded, reports := 0, [];
      partLoaded := seq(PartCount(|blob|), _ => 0);
    }

    /** The callback of one part replaces what that part had reported before. */
    method OnLoaded(part: nat, bytes: nat)
      requires part < |partLoaded|
      modifies this
      ensures partLoaded == old(partLoaded)[part := bytes]
      ensures loaded == old(loaded) + bytes - old(partLoaded)[part] && reports == old(reports) + [loaded]
    {
      loaded := loaded + bytes - partLoaded[part];
      partLoaded := partLoaded[part := bytes];
      reports := reports + [loaded];
    }

    method Handle(e: Callback)
      requires e.part < |partLoaded|
      modifies this
      ensures var bytes :=
                match e case Sent(_, b) => b case AttemptFailed(_) => 0 case Succeeded(_) => |PartAt(blob, e.part)|;
              && partLoaded == old(partLoaded)[e.part := bytes]
              && loaded == old(loaded) + bytes - old(partLoaded)[e.part] && reports == old(reports) + [loaded]
    {
      match e
      case Sent(part, bytes) => OnLoaded(part, bytes);
      case AttemptFailed(part) => OnLoaded(part, 0);
      case Succeeded(part) => OnLoaded(part, |PartAt(blob, part)|);
    }

    /**
     Under any interleaving of callbacks, failed attempts and successes, the
     counter is the sum of what each part last reported, every report lies within
     the blob, and once every part's last word is success it is the blob's size.
     */
    method Replay(events: seq<Callback>)
      requires blob != [] && loaded == 0 && partLoaded == AllLatest(blob, []) && reports == []
      requires forall k | 0 <= k < |events| :: ValidCallback(blob, events[k])
      modifies this
      ensures partLoaded == AllLatest(blob, events) && loaded == Total(partLoaded) && |reports| == |events|
      ensures forall k | 0 <= k < |reports| ::
                reports[k] == Total(AllLatest(blob, events[..k + 1])) && 0 <= reports[k] <= |blob|
      ensures (forall i | 0 <= i < PartCount(|blob|) :: LastSucceeded(events, i)) ==> loaded == |blob|
    {
      hide CeilDiv, PartSize, PartCount, PartAt, Joined;
      NothingLatest(blob);
      for k := 0 to |events|
        invariant partLoaded == AllLatest(blob, events[..k]) && loaded == Total(partLoaded) && |reports| == k
        invariant forall j | 0 <= j < k ::
                    reports[j] == Total(AllLatest(blob, events[..j + 1])) && 0 <= reports[j] <= |blob|
      {
        assert events[..k + 1][..k] == events[..k];
        TotalUpdate(partLoaded, events[k].part, Latest(blob, events[..k + 1], events[k].part));
        Handle(events[k]);
        assert partLoaded == AllLatest(blob, events[..k + 1]);
        LatestWithin(blob, events[..k + 1]);
      }
      assert events[..|events|] == events;
      if forall i | 0 <= i < PartCount(|blob|) :: LastSucceeded(events, i) {
        AllSucceeded(blob, events);
      }
    }
  }

  /** The last that was heard of this part is that it succeeded. */
  predicate LastSucceeded(events: seq<Callback>, part: nat) {
    events != [] &&
    if events[|events| - 1].part == part then events[|events| - 1].Succeeded?
    else LastSucceeded(events[..|events| - 1], part)
  }

  lemma {:induction false} SucceededLatest(blob: Bytes, events: seq<Callback>, part: nat)
    requires LastSucceeded(events, part)
    ensures Latest(blob, events, part) == |PartAt(blob, part)|
  {
    if events[|events| - 1].part != part {
      SucceededLatest(blob, events[..|events| - 1], part);
    }
  }

  lemma AllSucceeded(blob: Bytes, events: seq<Callback>)
    requires blob != [] && forall i | 0 <= i < PartCount(|blob|) :: LastSucceeded(events, i)
    ensures Total(AllLatest(blob, events)) == |blob|
  {
    hide CeilDiv, PartSize, PartCount, PartAt, Joined, LastSucceeded;
    var n := PartCount(|blob|);
    forall i | 0 <= i < n ensures AllLatest(blob, events)[i] == Sizes(blob, n)[i] {
      SucceededLatest(blob, events, i);
    }
    assert AllLatest(blob, events) == Sizes(blob, n);
    SizesTotal(blob, n);
    PartsPartition(blob);
  }

  lemma {:induction false} NothingLatest(blob: Bytes)
    ensures Total(AllLatest(blob, [])) == 0
  {
    ZeroTotal(AllLatest(blob, []));
  }

  lemma {:induction false} ZeroTotal(loads: seq<nat>)
    requires forall i | 0 <= i < |loads| :: loads[i] == 0
    ensures Total(loads) == 0
  {
    if loads != [] {
      ZeroTotal(loads[..|loads| - 1]);
    }
  }

  lemma {:induction false} LatestAtMost(blob: Bytes, events: seq<Callback>, part: nat)
    requires forall k | 0 <= k < |events| :: ValidCallback(blob, events[k])
    ensures Latest(blob, events, part) <= |PartAt(blob, part)|
  {
    if events != [] {
      assert ValidCallback(blob, events[|events| - 1]);
      LatestAtMost(blob, events[..|events| - 1], part);
    }
  }

  lemma LatestWithin(blob: Bytes, events: seq<Callback>)
    requires blob != [] && forall k | 0 <= k < |events| :: ValidCallback(blob, events[k])
    ensures Total(AllLatest(blob, events)) <= |blob|
  {
    var n := PartCount(|blob|);
    forall i | 0 <= i < n ensures AllLatest(blob, events)[i] <= Sizes(blob, n)[i] {
      LatestAtMost(blob, events, i);
    }
    TotalAtMost(AllLatest(blob, events), Sizes(blob, n));
    SizesTotal(blob, n);
    PartsPartition(blob);
  }
}
