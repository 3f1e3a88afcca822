/** Per-shard pod names and reading the shard back from one
    (internal/controller/cluster_topology.go, internal/redis/shard_colocation.go). */
module ShardNames {
  import opened Decimals

  /** Go's largest int, past which strconv.Atoi fails. */
  const MAX_INT := 0x7FFF_FFFF_FFFF_FFFF

  function PodName(instance: string, shard: nat, ordinal: nat): string {
    instance + "-shard-" + Decimal(shard) + "-" + Decimal(ordinal)
  }

  predicate AllDigits(s: string) {
    s != [] && forall i :: 0 <= i < |s| ==> IsDigit(s[i])
  }

  /** The match of the pattern -shard-(\d+)-\d+$ : `shard` is the captured group. */
  ghost predicate Matches(pod: string, before: string, shard: string, ordinal: string) {
    AllDigits(shard) && AllDigits(ordinal) && pod == before + "-shard-" + shard + "-" + ordinal
  }

  /** Length of the longest run of digits a string ends in. */
  function DigitSuffix(s: string): (n: nat)
    ensures n <= |s| && (forall i :: |s| - n <= i < |s| ==> IsDigit(s[i])) && (n < |s| ==> !IsDigit(s[|s| - n - 1]))
  {
    if s == [] || !IsDigit(s[|s| - 1]) then 0 else 1 + DigitSuffix(s[..|s| - 1])
  }

  predicate EndsWith(s: string, suffix: string) {
    |suffix| <= |s| && s[|s| - |suffix|..] == suffix
  }

  /** The captured digits as an int, or -1 when they are too large for one. */
  function Index(digits: string): int
    requires AllDigits(digits)
  {
    if Value(digits) <= MAX_INT then Value(digits) else -1
  }

  /** The shard index, or -1 when the name is not in per-shard form. */
  function ShardIndex(pod: string): int {
    var o := DigitSuffix(pod);
    var upToOrdinal := pod[..|pod| - o];
    if o == 0 || !EndsWith(upToOrdinal, "-") then -1
    else
      var upToShard := upToOrdinal[..|upToOrdinal| - 1];
      var d := DigitSuffix(upToShard);
      if d == 0 || !EndsWith(upToShard[..|upToShard| - d], "-shard-") then -1
      else Index(upToShard[|upToShard| - d..])
  }

  lemma {:induction false} SuffixIs(before: string, digits: string)
    requires AllDigits(digits) && before != [] && !IsDigit(before[|before| - 1])
    ensures DigitSuffix(before + digits) == |digits|
  {
    var s := before + digits;
    assert forall i :: |before| <= i < |s| ==> IsDigit(s[i]);
    assert s[|before| - 1] == before[|before| - 1];
  }

  /** Whatever precedes the match, and however the digits fall, the group captured is the one read. */
  lemma {:induction false} ReadsTheMatch(pod: string, before: string, shard: string, ordinal: string)
    requires Matches(pod, before, shard, ordinal)
    ensures ShardIndex(pod) == Index(shard)
  {
    var head := before + "-shard-";
    var upToShard := head + shard;
    var upToOrdinal := upToShard + "-";
    assert pod == upToOrdinal + ordinal;
    SuffixIs(upToOrdinal, ordinal);
    assert pod[..|pod| - |ordinal|] == upToOrdinal;
    assert upToOrdinal[..|upToOrdinal| - 1] == upToShard && EndsWith(upToOrdinal, "-");
    assert head[|head| - 1] == '-';
    SuffixIs(head, shard);
    assert upToShard[..|upToShard| - |shard|] == head && upToShard[|upToShard| - |shard|..] == shard;
    assert head[|head| - 7..] == "-shard-";
  }

  lemma {:induction false} SuffixSplits(s: string, suffix: string)
    requires EndsWith(s, suffix)
    ensures s == s[..|s| - |suffix|] + suffix
  {
  }

  lemma {:induction false} DigitsSplit(s: string)
    ensures s == s[..|s| - DigitSuffix(s)] + s[|s| - DigitSuffix(s)..]
    ensures DigitSuffix(s) > 0 ==> AllDigits(s[|s| - DigitSuffix(s)..])
  {
  }

  lemma {:induction false} IndexMeansMatch(pod: string) returns (before: string, shard: string, ordinal: string)
    requires ShardIndex(pod) >= 0
    ensures Matches(pod, before, shard, ordinal)
  {
    var o := DigitSuffix(pod);
    var upToOrdinal := pod[..|pod| - o];
    var upToShard := upToOrdinal[..|upToOrdinal| - 1];
    var d := DigitSuffix(upToShard);
    var head := upToShard[..|upToShard| - d];
    before, shard, ordinal := head[..|head| - 7], upToShard[|upToShard| - d..], pod[|pod| - o..];
    DigitsSplit(pod);
    DigitsSplit(upToShard);
    SuffixSplits(upToOrdinal, "-");
    SuffixSplits(head, "-shard-");
    PartsJoin(pod, upToOrdinal, upToShard, head, before, shard, ordinal);
  }

  lemma {:induction false} PartsJoin(pod: string, upToOrdinal: string, upToShard: string, head: string, before: string, shard: string, ordinal: string)
    requires AllDigits(shard) && AllDigits(ordinal) && pod == upToOrdinal + ordinal && upToOrdinal == upToShard + "-"
    requires upToShard == head + shard && head == before + "-shard-"
    ensures Matches(pod, before, shard, ordinal)
  {
  }

  /** Reading inverts naming, for every instance name and every shard number an int can hold. */
  lemma {:induction false} NamesRoundTrip(instance: string, shard: nat, ordinal: nat)
    requires shard <= MAX_INT
    ensures ShardIndex(PodName(instance, shard, ordinal)) == shard
  {
    ValueOfDecimal(shard);
    ValueOfDecimal(ordinal);
    ReadsTheMatch(PodName(instance, shard, ordinal), instance, Decimal(shard), Decimal(ordinal));
  }
}
