/** What one gather says about the Sentinels and Redis pods of a sentinel-mode instance
    (internal/redis/replication_state.go, internal/redis/client.go). */
module Sentinels {
  import opened Lineage

  /** One row of SENTINEL MASTERS. */
  datatype MonitoredMaster = MonitoredMaster(name: string, ip: string, flags: string, failoverState: string)

  /** `monitoring`, `masterIP` and `masterFlags` answer the probe for the desired name; `monitored` is
      the full list, empty when it could not be read. */
  datatype SentinelNode = SentinelNode(podName: string, ip: string, reachable: bool, monitoring: bool,
                                       masterIP: string, masterFlags: string, monitored: seq<MonitoredMaster>)

  datatype Gather = Gather(redis: RedisNodes, sentinels: map<string, SentinelNode>,
                           live: set<string>, owned: set<string>, realMasterIP: string, failoverReported: bool)

  predicate OccursAt(s: string, part: string, i: nat) {
    i + |part| <= |s| && s[i..i + |part|] == part
  }

  predicate Contains(s: string, part: string) {
    exists i | 0 <= i <= |s| :: OccursAt(s, part, i)
  }

  lemma {:induction false} ContainsIff(s: string, part: string)
    ensures Contains(s, part) <==> exists a: string, b: string :: s == a + part + b
  {
    if Contains(s, part) {
      var i :| 0 <= i <= |s| && OccursAt(s, part, i);
      assert s == s[..i] + part + s[i + |part|..];
    }
    forall a: string, b: string | s == a + part + b ensures Contains(s, part) {
      assert OccursAt(s, part, |a|);
    }
  }

  predicate FlaggedDown(flags: string) {
    Contains(flags, "s_down") || Contains(flags, "o_down")
  }

  predicate IsOurs(g: Gather, ip: string) {
    ip != "" && ip in g.owned
  }

  /** An address that is neither ours nor flagged down: something else is alive there. */
  predicate AliveAndNotOurs(g: Gather, m: MonitoredMaster) {
    !IsOurs(g, m.ip) && !FlaggedDown(m.flags)
  }

  /** White space by unicode.IsSpace. */
  predicate IsSpace(c: char) {
    var n := c as int;
    || 9 <= n <= 13 || n == 0x20 || n == 0x85 || n == 0xA0 || n == 0x1680 || 0x2000 <= n <= 0x200A
    || n == 0x2028 || n == 0x2029 || n == 0x202F || n == 0x205F || n == 0x3000
  }

  function TrimLeft(s: string): string {
    if s != [] && IsSpace(s[0]) then TrimLeft(s[1..]) else s
  }

  function TrimSpace(s: string): string
    decreases |s|, 1
  {
    if s != [] && IsSpace(s[|s| - 1]) then TrimSpace(s[..|s| - 1]) else TrimLeft(s)
  }

  /** Anything but a recognised idle state counts as a failover in flight. */
  predicate FailingOver(m: MonitoredMaster) {
    Contains(m.flags, "failover_in_progress") || TrimSpace(m.failoverState) !in ["", "none"]
  }

  predicate Blank(s: string) {
    forall c <- s :: IsSpace(c)
  }

  lemma {:induction false} TrimSplits(s: string) returns (a: string, b: string)
    ensures s == a + TrimSpace(s) + b && Blank(a) && Blank(b)
    decreases |s|
  {
    if s != [] && IsSpace(s[|s| - 1]) {
      var init := s[..|s| - 1];
      a, b := TrimSplits(init);
      b := b + [s[|s| - 1]];
      assert s == init + [s[|s| - 1]];
    } else {
      a := LeftSplits(s);
      b := [];
    }
  }

  lemma {:induction false} LeftSplits(s: string) returns (a: string)
    ensures s == a + TrimLeft(s) && Blank(a)
  {
    a := [];
    if s != [] && IsSpace(s[0]) {
      var rest := LeftSplits(s[1..]);
      a := [s[0]] + rest;
    }
  }

  /** Blanks around a word go, and the word stays. */
  lemma {:induction false} TrimOf(a: string, word: string, b: string)
    requires Blank(a) && Blank(b) && word != [] && !IsSpace(word[0]) && !IsSpace(word[|word| - 1])
    ensures TrimSpace(a + word + b) == word
    decreases |b|
  {
    var s := a + word + b;
    if b == [] {
      assert s == a + word && s[|s| - 1] == word[|word| - 1];
      TrimLeftOf(a, word);
    } else {
      assert s[..|s| - 1] == a + word + b[..|b| - 1] && s[|s| - 1] == b[|b| - 1];
      TrimOf(a, word, b[..|b| - 1]);
    }
  }

  lemma {:induction false} TrimLeftOf(a: string, word: string)
    requires Blank(a) && word != [] && !IsSpace(word[0])
    ensures TrimLeft(a + word) == word
  {
    if a != [] {
      assert (a + word)[1..] == a[1..] + word;
      TrimLeftOf(a[1..], word);
    } else {
      assert a + word == word;
    }
  }

  lemma {:induction false} TrimsToNothing(s: string)
    ensures TrimSpace(s) == "" <==> Blank(s)
    decreases |s|
  {
    if Blank(s) {
      if s != [] { TrimsToNothing(s[..|s| - 1]); }
    } else {
      var a, b := TrimSplits(s);
    }
  }

  lemma {:induction false} TrimsToNone(s: string)
    ensures TrimSpace(s) == "none" <==> exists a: string, b: string :: Blank(a) && Blank(b) && s == a + "none" + b
  {
    var x, y := TrimSplits(s);
    forall a: string, b: string | Blank(a) && Blank(b) && s == a + "none" + b ensures TrimSpace(s) == "none" {
      TrimOf(a, "none", b);
    }
  }

  /** Idle is a blank state or the word none between blanks, with no failover flag. */
  lemma {:induction false} FailingOverIff(m: MonitoredMaster)
    ensures FailingOver(m) <==>
            || Contains(m.flags, "failover_in_progress")
            || !(Blank(m.failoverState) || exists a: string, b: string :: Blank(a) && Blank(b) && m.failoverState == a + "none" + b)
  {
    TrimsToNothing(m.failoverState);
    TrimsToNone(m.failoverState);
  }
}
