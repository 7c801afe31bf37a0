/** Time-ordered identifiers (apps/daemon/src/persistence/uuidv7.ts), section 5.7 of RFC 9562. */
module Uuid {
  import opened Common

  const SEQUENCES := 0x1000
  const CLOCK_LIMIT := 0x1_0000_0000_0000

  // ---- lexicographic order of equally long sequences ----

  ghost predicate LexLess(a: seq<int>, b: seq<int>) {
    exists k :: 0 <= k < |a| && k < |b| && a[..k] == b[..k] && a[k] < b[k]
  }

  lemma LexConcatSplits(a: seq<int>, c: seq<int>, b: seq<int>, d: seq<int>)
    requires |a| == |b| && LexLess(a + c, b + d)
    ensures LexLess(a, b) || (a == b && LexLess(c, d))
  {
    var k :| 0 <= k < |a + c| && k < |b + d| && (a + c)[..k] == (b + d)[..k] && (a + c)[k] < (b + d)[k];
    if k < |a| {
      PrefixWithin(a, c, k);
      PrefixWithin(b, d, k);
      assert a[..k] == b[..k] && a[k] < b[k];
    } else {
      var m := k - |a|;
      PrefixBeyond(a, c, k);
      PrefixBeyond(b, d, k);
      SplitAlike(a, c[..m], b, d[..m]);
      assert c[..m] == d[..m] && c[m] < d[m];
    }
  }

  lemma LexConcatFirst(a: seq<int>, c: seq<int>, b: seq<int>, d: seq<int>)
    requires |a| == |b| && LexLess(a, b)
    ensures LexLess(a + c, b + d)
  {
    var k :| 0 <= k < |a| && k < |b| && a[..k] == b[..k] && a[k] < b[k];
    PrefixWithin(a, c, k);
    PrefixWithin(b, d, k);
    assert (a + c)[k] < (b + d)[k];
  }

  lemma LexConcatSecond(a: seq<int>, c: seq<int>, d: seq<int>)
    requires LexLess(c, d)
    ensures LexLess(a + c, a + d)
  {
    var k :| 0 <= k < |c| && k < |d| && c[..k] == d[..k] && c[k] < d[k];
    PrefixBeyond(a, c, |a| + k);
    PrefixBeyond(a, d, |a| + k);
    assert (a + c)[|a| + k] < (a + d)[|a| + k];
  }

  lemma LexConcat(a: seq<int>, c: seq<int>, b: seq<int>, d: seq<int>)
    requires |a| == |b|
    ensures LexLess(a + c, b + d) <==> LexLess(a, b) || (a == b && LexLess(c, d))
  {
    if LexLess(a + c, b + d) { LexConcatSplits(a, c, b, d); }
    if LexLess(a, b) { LexConcatFirst(a, c, b, d); }
    if a == b && LexLess(c, d) { LexConcatSecond(a, c, d); }
  }

  /** The number a big-endian byte string denotes. */
  function Value(s: seq<int>): int {
    if s == [] then 0 else Value(s[..|s| - 1]) * 256 + s[|s| - 1]
  }

  ghost predicate AreBytes(s: seq<int>) {
    forall i :: 0 <= i < |s| ==> 0 <= s[i] < 256
  }

  lemma LexSingle(x: int, y: int)
    ensures LexLess([x], [y]) <==> x < y
  {
    if x < y {
      assert [x][..0] == [y][..0] && [x][0] < [y][0];
    }
  }

  lemma SplitLast(s: seq<int>)
    requires s != []
    ensures s == s[..|s| - 1] + [s[|s| - 1]]
  {
  }

  lemma {:induction false} LexIsNumeric(a: seq<int>, b: seq<int>)
    requires |a| == |b| && AreBytes(a) && AreBytes(b)
    ensures LexLess(a, b) <==> Value(a) < Value(b)
    ensures a == b <==> Value(a) == Value(b)
    decreases |a|
  {
    if a == [] {
    } else {
      var n := |a| - 1;
      LexIsNumeric(a[..n], b[..n]);
      SplitLast(a);
      SplitLast(b);
      LexConcat(a[..n], [a[n]], b[..n], [b[n]]);
      LexSingle(a[n], b[n]);
      DigitOrder(Value(a[..n]), a[n], Value(b[..n]), b[n]);
    }
  }

  lemma DigitOrder(x: int, d: int, y: int, e: int)
    requires 0 <= d < 256 && 0 <= e < 256
    ensures x * 256 + d < y * 256 + e <==> x < y || (x == y && d < e)
    ensures x * 256 + d == y * 256 + e <==> x == y && d == e
  {
  }

  // ---- the generator ----

  /** Sixteen bytes: a 48-bit millisecond clock, the version, a 12-bit sequence number, the variant
      and random bits. */
  function Pack(now: nat, sequence: nat, random: Bytes): (r: Bytes)
    requires |random| == 16 && sequence < SEQUENCES
    ensures |r| == 16
  {
    [now / 0x100_0000_0000 % 0x100, now / 0x1_0000_0000 % 0x100, now / 0x100_0000 % 0x100,
     now / 0x1_0000 % 0x100, now / 0x100 % 0x100, now % 0x100,
     0x70 + sequence / 0x100 % 0x10, sequence % 0x100,
     0x80 + random[8] % 0x40] + random[9..]
  }

  function NextSequence(last: nat, sequence: nat, now: nat): (r: nat)
    ensures r < SEQUENCES
  {
    if now == last then (sequence + 1) % SEQUENCES else 0
  }

  class Generator {
    var lastTimestamp: nat
    var sequence: nat

    ghost predicate Valid()
      reads this
    {
      sequence < SEQUENCES
    }

    constructor ()
      ensures Valid() && lastTimestamp == 0 && sequence == 0
    {
      lastTimestamp, sequence := 0, 0;
    }

    /** One identifier at clock reading `now`; `random` is what the system's generator returns. */
    method Next(now: nat, random: Bytes) returns (bytes: array<byte>)
      requires Valid() && |random| == 16
      modifies this
      ensures Valid() && fresh(bytes)
      ensures lastTimestamp == now && sequence == NextSequence(old(lastTimestamp), old(sequence), now)
      ensures bytes[..] == Pack(now, sequence, random)
    {
      if now == lastTimestamp {
        sequence := (sequence + 1) % SEQUENCES;
      } else {
        lastTimestamp := now;
        sequence := 0;
      }
      bytes := new byte[16](i requires 0 <= i < 16 => random[i]);
      bytes[0] := now / 0x100_0000_0000 % 0x100;
      bytes[1] := now / 0x1_0000_0000 % 0x100;
      bytes[2] := now / 0x100_0000 % 0x100;
      bytes[3] := now / 0x1_0000 % 0x100;
      bytes[4] := now / 0x100 % 0x100;
      bytes[5] := now % 0x100;
      bytes[6] := 0x70 + sequence / 0x100 % 0x10;
      bytes[7] := sequence % 0x100;
      bytes[8] := 0x80 + bytes[8] % 0x40;
    }
  }

  // ---- time order ----

  lemma ValueStep(s: seq<int>, n: nat)
    requires n < |s|
    ensures Value(s[..n + 1]) == Value(s[..n]) * 256 + s[n]
  {
    assert s[..n + 1][..n] == s[..n];
  }

  lemma ClockDigits(now: nat)
    requires now < CLOCK_LIMIT
    ensures now / 0x100_0000_0000 % 0x100 == now / 0x100_0000_0000
    ensures now / 0x1_0000_0000 == now / 0x100_0000_0000 * 256 + now / 0x1_0000_0000 % 0x100
    ensures now / 0x100_0000 == now / 0x1_0000_0000 * 256 + now / 0x100_0000 % 0x100
  {
  }

  lemma LowClockDigits(now: nat)
    ensures now / 0x1_0000 == now / 0x100_0000 * 256 + now / 0x1_0000 % 0x100
    ensures now / 0x100 == now / 0x1_0000 * 256 + now / 0x100 % 0x100
    ensures now == now / 0x100 * 256 + now % 0x100
  {
  }

  lemma PackValue(now: nat, sequence: nat, random: Bytes)
    requires |random| == 16 && sequence < SEQUENCES && now < CLOCK_LIMIT
    ensures Value(Pack(now, sequence, random)[..8]) == now * 0x1_0000 + 0x7000 + sequence
  {
    var s := Pack(now, sequence, random);
    ClockValue(now, s);
    ValueStep(s, 6);
    ValueStep(s, 7);
  }

  lemma ClockValue(now: nat, s: seq<int>)
    requires |s| >= 6 && now < CLOCK_LIMIT
    requires s[0] == now / 0x100_0000_0000 % 0x100 && s[1] == now / 0x1_0000_0000 % 0x100
    requires s[2] == now / 0x100_0000 % 0x100 && s[3] == now / 0x1_0000 % 0x100
    requires s[4] == now / 0x100 % 0x100 && s[5] == now % 0x100
    ensures Value(s[..6]) == now
  {
    ClockDigits(now);
    LowClockDigits(now);
    assert s[..0] == [];
    ValueStep(s, 0);
    ValueStep(s, 1);
    ValueStep(s, 2);
    ValueStep(s, 3);
    ValueStep(s, 4);
    ValueStep(s, 5);
  }

  /** The layout of section 5.7 of RFC 9562: the clock in the first 48 bits, version 7, twelve bits of sequence, the
      variant, and 62 random bits. */
  lemma LayoutIsVersion7(now: nat, sequence: nat, random: Bytes)
    requires |random| == 16 && sequence < SEQUENCES && now < CLOCK_LIMIT
    ensures
      var id := Pack(now, sequence, random);
      && Value(id[..6]) == now
      && id[6] as int / 0x10 == 7 && id[6] as int % 0x10 * 0x100 + id[7] as int == sequence
      && id[8] as int / 0x40 == 2 && id[8] as int % 0x40 == random[8] as int % 0x40 && id[9..] == random[9..]
  {
    var id := Pack(now, sequence, random);
    ClockValue(now, id);
  }

  /** The identifiers of two different (clock, sequence) pairs compare as the pairs do,
      whatever the random bytes. */
  lemma PackOrder(now: nat, sequence: nat, random: Bytes, now': nat, sequence': nat, random': Bytes)
    requires |random| == 16 && sequence < SEQUENCES && now < CLOCK_LIMIT
    requires |random'| == 16 && sequence' < SEQUENCES && now' < CLOCK_LIMIT
    requires (now, sequence) != (now', sequence')
    ensures LexLess(Pack(now, sequence, random), Pack(now', sequence', random'))
            <==> now < now' || (now == now' && sequence < sequence')
  {
    var a, b := Pack(now, sequence, random), Pack(now', sequence', random');
    PackValue(now, sequence, random);
    PackValue(now', sequence', random');
    LexIsNumeric(a[..8], b[..8]);
    LexConcat(a[..8], a[8..], b[..8], b[8..]);
    assert a == a[..8] + a[8..] && b == b[..8] + b[8..];
  }

  /** The next identifier is greater exactly when the clock has advanced, or has not moved and the
      12-bit sequence has not just been used up. */
  lemma NextIsGreater(last: nat, sequence: nat, random: Bytes, now: nat, random': Bytes)
    requires |random| == 16 && |random'| == 16
    requires sequence < SEQUENCES && last < CLOCK_LIMIT && now < CLOCK_LIMIT
    ensures LexLess(Pack(last, sequence, random), Pack(now, NextSequence(last, sequence, now), random'))
            <==> last < now || (last == now && sequence + 1 < SEQUENCES)
  {
    PackOrder(last, sequence, random, now, NextSequence(last, sequence, now), random');
  }

  /** One call of the generator: the clock reading, the random bytes, and whether the process was started
      anew since the previous call, which resets the generator. */
  datatype Call = Call(now: nat, random: Bytes, restarted: bool)

  /** The calls of any number of processes, one after the other. */
  ghost predicate AreCalls(calls: seq<Call>) {
    forall i :: 0 <= i < |calls| ==> |calls[i].random| == 16 && 0 < calls[i].now < CLOCK_LIMIT
  }

  /** The sequence number of the i-th call. */
  function SequenceAt(calls: seq<Call>, i: nat): (r: nat)
    requires i < |calls|
    ensures r < SEQUENCES
  {
    if i == 0 || calls[i].restarted then NextSequence(0, 0, calls[i].now)
    else NextSequence(calls[i - 1].now, SequenceAt(calls, i - 1), calls[i].now)
  }

  function IdAt(calls: seq<Call>, i: nat): (r: Bytes)
    requires i < |calls| && |calls[i].random| == 16
    ensures |r| == 16
  {
    Pack(calls[i].now, SequenceAt(calls, i), calls[i].random)
  }

  ghost predicate Increasing(calls: seq<Call>)
    requires AreCalls(calls)
  {
    forall i, j :: 0 <= i < j < |calls| ==> LexLess(IdAt(calls, i), IdAt(calls, j))
  }

  /** The clock never goes back, no millisecond sees more than 4096 calls, and none sees calls of two processes. */
  ghost predicate Paced(calls: seq<Call>) {
    && (forall i, j :: 0 <= i <= j < |calls| ==> calls[i].now <= calls[j].now)
    && (forall i :: 0 <= i && i + SEQUENCES < |calls| ==> calls[i].now < calls[i + SEQUENCES].now)
    && (forall i :: 0 < i < |calls| && calls[i].restarted ==> calls[i - 1].now < calls[i].now)
  }

  /** The sequence number `r` of the call before is not used up in the same millisecond. */
  lemma OneMoreCounts(calls: seq<Call>, i: nat, r: nat)
    requires AreCalls(calls) && 0 < i < |calls| && Paced(calls) && r < SEQUENCES
    requires r <= i - 1 && calls[i - 1 - r].now == calls[i - 1].now
    ensures
      var next := NextSequence(calls[i - 1].now, r, calls[i].now);
      && next <= i && calls[i - next].now == calls[i].now
      && (calls[i - 1].now == calls[i].now ==> next == r + 1)
  {
    assert r + 1 == SEQUENCES ==> calls[i - SEQUENCES].now < calls[i].now;
  }

  lemma {:induction false} SequenceCounts(calls: seq<Call>, i: nat)
    requires AreCalls(calls) && i < |calls| && Paced(calls)
    ensures SequenceAt(calls, i) <= i
    ensures calls[i - SequenceAt(calls, i)].now == calls[i].now
    ensures i > 0 && calls[i - 1].now == calls[i].now ==> SequenceAt(calls, i) == SequenceAt(calls, i - 1) + 1
  {
    if i > 0 && !calls[i].restarted {
      SequenceCounts(calls, i - 1);
      OneMoreCounts(calls, i, SequenceAt(calls, i - 1));
    }
  }

  lemma {:induction false} PairsIncrease(calls: seq<Call>, i: nat, j: nat)
    requires AreCalls(calls) && i < j < |calls| && Paced(calls)
    ensures calls[i].now < calls[j].now || (calls[i].now == calls[j].now && SequenceAt(calls, i) < SequenceAt(calls, j))
    decreases j
  {
    SequenceCounts(calls, j);
    if i < j - 1 {
      PairsIncrease(calls, i, j - 1);
    }
    assert calls[j - 1].now <= calls[j].now;
  }

  /** The clock advances after `j`, or stays in one process and leaves room in the sequence. */
  ghost predicate StepsUp(calls: seq<Call>, j: nat)
    requires j + 1 < |calls|
  {
    calls[j].now < calls[j + 1].now
    || (calls[j].now == calls[j + 1].now && !calls[j + 1].restarted && SequenceAt(calls, j) + 1 < SEQUENCES)
  }

  ghost predicate AllStepUp(calls: seq<Call>) {
    forall j :: 0 <= j < |calls| - 1 ==> StepsUp(calls, j)
  }

  lemma {:induction false} ClockClimbs(calls: seq<Call>, i: nat, j: nat)
    requires AllStepUp(calls) && i <= j < |calls|
    ensures calls[i].now <= calls[j].now
    decreases j
  {
    if i < j {
      ClockClimbs(calls, i, j - 1);
      assert StepsUp(calls, j - 1);
    }
  }

  lemma {:induction false} SequenceClimbs(calls: seq<Call>, i: nat, k: nat)
    requires AllStepUp(calls) && i + k < |calls| && calls[i].now == calls[i + k].now
    ensures SequenceAt(calls, i + k) == SequenceAt(calls, i) + k
    decreases k
  {
    if k > 0 {
      ClockClimbs(calls, i, i + k - 1);
      ClockClimbs(calls, i + k - 1, i + k);
      SequenceClimbs(calls, i, k - 1);
      assert StepsUp(calls, i + k - 1);
    }
  }

  lemma ClimbingIsPaced(calls: seq<Call>)
    requires AllStepUp(calls)
    ensures Paced(calls)
  {
    forall i, j | 0 <= i <= j < |calls| ensures calls[i].now <= calls[j].now {
      ClockClimbs(calls, i, j);
    }
    forall i | 0 <= i && i + SEQUENCES < |calls| ensures calls[i].now < calls[i + SEQUENCES].now {
      ClockClimbs(calls, i, i + SEQUENCES);
      if calls[i].now == calls[i + SEQUENCES].now {
        SequenceClimbs(calls, i, SEQUENCES);
      }
    }
    forall i | 0 < i < |calls| && calls[i].restarted ensures calls[i - 1].now < calls[i].now {
      assert StepsUp(calls, i - 1);
    }
  }

  /** The same clock readings and restarts with other random bytes. */
  ghost predicate SameTimes(a: seq<Call>, b: seq<Call>) {
    && |a| == |b|
    && forall i :: 0 <= i < |a| ==> a[i].now == b[i].now && a[i].restarted == b[i].restarted
  }

  lemma {:induction false} SameTimesSameSequence(a: seq<Call>, b: seq<Call>, i: nat)
    requires SameTimes(a, b) && i < |a|
    ensures SequenceAt(a, i) == SequenceAt(b, i)
  {
    if i > 0 { SameTimesSameSequence(a, b, i - 1); }
  }

  /** The calls with all random bytes zero, where equal clock and sequence give equal identifiers. */
  ghost function Zeroed(calls: seq<Call>): (r: seq<Call>)
    requires AreCalls(calls)
    ensures AreCalls(r) && SameTimes(calls, r)
  {
    seq(|calls|, i requires 0 <= i < |calls| => calls[i].(random := [0, 0, 0, 0, 0, 0, 0, 0, 0, 0, 0, 0, 0, 0, 0, 0]))
  }

  lemma ZeroedStepsUp(calls: seq<Call>, j: nat)
    requires AreCalls(calls) && j + 1 < |calls|
    requires LexLess(IdAt(Zeroed(calls), j), IdAt(Zeroed(calls), j + 1))
    ensures StepsUp(calls, j)
  {
    var zeroed := Zeroed(calls);
    SameTimesSameSequence(calls, zeroed, j);
    SameTimesSameSequence(calls, zeroed, j + 1);
    var now, now' := calls[j].now, calls[j + 1].now;
    var sequence, sequence' := SequenceAt(calls, j), SequenceAt(calls, j + 1);
    if (now, sequence) != (now', sequence') {
      PackOrder(now, sequence, zeroed[j].random, now', sequence', zeroed[j + 1].random);
    }
  }

  lemma PacedIncreases(calls: seq<Call>)
    requires AreCalls(calls) && Paced(calls)
    ensures Increasing(calls)
  {
    forall i, j | 0 <= i < j < |calls| ensures LexLess(IdAt(calls, i), IdAt(calls, j)) {
      PairsIncrease(calls, i, j);
      PackOrder(calls[i].now, SequenceAt(calls, i), calls[i].random, calls[j].now, SequenceAt(calls, j), calls[j].random);
    }
  }

  ghost predicate AlwaysIncreasing(calls: seq<Call>) {
    forall other :: AreCalls(other) && SameTimes(calls, other) ==> Increasing(other)
  }

  lemma OnlyPacedIncreases(calls: seq<Call>)
    requires AreCalls(calls) && AlwaysIncreasing(calls)
    ensures Paced(calls)
  {
    assert Increasing(Zeroed(calls));
    forall j | 0 <= j < |calls| - 1 ensures StepsUp(calls, j) {
      ZeroedStepsUp(calls, j);
    }
    ClimbingIsPaced(calls);
  }

  /** The identifiers of all processes are strictly increasing whatever the random bytes, if and only if the clock
      never goes back, no millisecond sees more than 4096 calls, and no process is called in the millisecond of the
      last call before it was started. */
  lemma TimeOrdered(calls: seq<Call>)
    requires AreCalls(calls)
    ensures AlwaysIncreasing(calls) <==> Paced(calls)
  {
    if Paced(calls) {
      forall other | AreCalls(other) && SameTimes(calls, other) ensures Increasing(other) {
        PacedIncreases(other);
      }
    } else if AlwaysIncreasing(calls) {
      OnlyPacedIncreases(calls);
    }
  }

  // ---- the printed form ----

  const HEX := "0123456789abcdef"

  function Hex(s: Bytes): (r: string)
    ensures |r| == 2 * |s|
  {
    if s == [] then "" else [HEX[s[0] / 16], HEX[s[0] % 16]] + Hex(s[1..])
  }

  function Format(bytes: Bytes): string
    requires |bytes| == 16
  {
    Hex(bytes[..4]) + ("-" + From4(bytes))
  }

  function From4(bytes: Bytes): string
    requires |bytes| == 16
  {
    Hex(bytes[4..6]) + ("-" + From6(bytes))
  }

  function From6(bytes: Bytes): string
    requires |bytes| == 16
  {
    Hex(bytes[6..8]) + ("-" + From8(bytes))
  }

  function From8(bytes: Bytes): string
    requires |bytes| == 16
  {
    Hex(bytes[8..10]) + ("-" + Hex(bytes[10..]))
  }

  /** Strings compare by UTF-16 code unit. */
  function Codes(s: string): (r: seq<int>)
    ensures |r| == |s|
    ensures forall i :: 0 <= i < |s| ==> r[i] == s[i] as int
  {
    seq(|s|, i requires 0 <= i < |s| => s[i] as int)
  }

  ghost predicate StringLess(a: string, b: string) {
    LexLess(Codes(a), Codes(b))
  }

  lemma StringConcat(a: string, c: string, b: string, d: string)
    requires |a| == |b|
    ensures StringLess(a + c, b + d) <==> StringLess(a, b) || (a == b && StringLess(c, d))
  {
    assert Codes(a + c) == Codes(a) + Codes(c) && Codes(b + d) == Codes(b) + Codes(d);
    LexConcat(Codes(a), Codes(c), Codes(b), Codes(d));
    assert Codes(a) == Codes(b) ==> a == b by {
      if Codes(a) == Codes(b) {
        forall i | 0 <= i < |a| ensures a[i] == b[i] {
          assert Codes(a)[i] == Codes(b)[i];
        }
      }
    }
  }

  lemma DigitPairOrder(x: byte, y: byte)
    ensures StringLess([HEX[x / 16], HEX[x % 16]], [HEX[y / 16], HEX[y % 16]]) <==> x < y
    ensures [HEX[x / 16], HEX[x % 16]] == [HEX[y / 16], HEX[y % 16]] <==> x == y
  {
    var a, b, c, d := HEX[x / 16], HEX[x % 16], HEX[y / 16], HEX[y % 16];
    assert [a, b] == [a] + [b] && [c, d] == [c] + [d];
    StringConcat([a], [b], [c], [d]);
    SingleOrder(a, c);
    SingleOrder(b, d);
    HexOrder(x / 16, y / 16);
    HexOrder(x % 16, y % 16);
  }

  lemma HexOrder(i: nat, j: nat)
    requires i < 16 && j < 16
    ensures HEX[i] < HEX[j] <==> i < j
    ensures HEX[i] == HEX[j] <==> i == j
  {
  }

  lemma SingleOrder(a: char, b: char)
    ensures StringLess([a], [b]) <==> a < b
  {
    if a < b {
      assert Codes([a])[..0] == Codes([b])[..0] && Codes([a])[0] < Codes([b])[0];
    }
  }

  lemma {:induction false} HexKeepsOrder(a: Bytes, b: Bytes)
    requires |a| == |b|
    ensures StringLess(Hex(a), Hex(b)) <==> LexLess(a, b)
    ensures Hex(a) == Hex(b) <==> a == b
  {
    if a == [] {
    } else {
      HexKeepsOrder(a[1..], b[1..]);
      DigitPairOrder(a[0], b[0]);
      var p, q := [HEX[a[0] / 16], HEX[a[0] % 16]], [HEX[b[0] / 16], HEX[b[0] % 16]];
      StringConcat(p, Hex(a[1..]), q, Hex(b[1..]));
      LexConcat([a[0]], a[1..], [b[0]], b[1..]);
      assert a == [a[0]] + a[1..] && b == [b[0]] + b[1..];
      LexSingle(a[0], b[0]);
      assert Hex(a) == Hex(b) ==> p == q && Hex(a[1..]) == Hex(b[1..]) by {
        if Hex(a) == Hex(b) {
          assert p == Hex(a)[..2] && q == Hex(b)[..2];
          assert Hex(a[1..]) == Hex(a)[2..] && Hex(b[1..]) == Hex(b)[2..];
        }
      }
    }
  }

  /** Comparing a shared separator adds nothing. */
  lemma SameStart(a: string, b: string, c: string)
    ensures StringLess(a + b, a + c) <==> StringLess(b, c)
  {
    StringConcat(a, b, a, c);
  }

  /** One dash-separated group: the strings compare as the bytes do. */
  lemma GroupOrder(a: Bytes, a': Bytes, rest: string, b: Bytes, b': Bytes, rest': string)
    requires |a| == |b|
    requires |a'| == |b'|
    requires StringLess(rest, rest') <==> LexLess(a', b')
    ensures StringLess(Hex(a) + ("-" + rest), Hex(b) + ("-" + rest')) <==> LexLess(a + a', b + b')
  {
    HexKeepsOrder(a, b);
    StringConcat(Hex(a), "-" + rest, Hex(b), "-" + rest');
    SameStart("-", rest, rest');
    LexConcat(a, a', b, b');
  }

  lemma Rejoin(s: Bytes, i: nat, j: nat)
    requires i <= j <= |s|
    ensures s[i..j] + s[j..] == s[i..]
  {
  }

  /** File names built from identifiers sort as the identifiers were generated. */
  lemma FormatKeepsOrder(a: Bytes, b: Bytes, suffix: string)
    requires |a| == |b| == 16
    ensures StringLess(Format(a) + suffix, Format(b) + suffix) <==> LexLess(a, b)
  {
    From4KeepsOrder(a, b);
    GroupOrder(a[..4], a[4..], From4(a), b[..4], b[4..], From4(b));
    assert a[..4] + a[4..] == a && b[..4] + b[4..] == b;
    StringConcat(Format(a), suffix, Format(b), suffix);
    NotBelowItself(suffix);
  }

  lemma From4KeepsOrder(a: Bytes, b: Bytes)
    requires |a| == |b| == 16
    ensures StringLess(From4(a), From4(b)) <==> LexLess(a[4..], b[4..])
  {
    From6KeepsOrder(a, b);
    GroupOrder(a[4..6], a[6..], From6(a), b[4..6], b[6..], From6(b));
    Rejoin(a, 4, 6);
    Rejoin(b, 4, 6);
  }

  lemma From8KeepsOrder(a: Bytes, b: Bytes)
    requires |a| == |b| == 16
    ensures StringLess(From8(a), From8(b)) <==> LexLess(a[8..], b[8..])
  {
    HexKeepsOrder(a[10..], b[10..]);
    GroupOrder(a[8..10], a[10..], Hex(a[10..]), b[8..10], b[10..], Hex(b[10..]));
    Rejoin(a, 8, 10);
    Rejoin(b, 8, 10);
  }

  lemma From6KeepsOrder(a: Bytes, b: Bytes)
    requires |a| == |b| == 16
    ensures StringLess(From6(a), From6(b)) <==> LexLess(a[6..], b[6..])
  {
    From8KeepsOrder(a, b);
    GroupOrder(a[6..8], a[8..], From8(a), b[6..8], b[8..], From8(b));
    Rejoin(a, 6, 8);
    Rejoin(b, 6, 8);
  }

  lemma NotBelowItself(s: string)
    ensures !StringLess(s, s)
  {
  }
}
