/** The gap check on the audit log's global sequence numbers. */
module GlobalSequence {
  import opened Sequences

  /** A gap between two neighbouring numbers of the log. */
  datatype Gap = Gap(before: int, after: int) {
    function Missing(): int { after - before - 1 }
    predicate Covers(m: int) { before < m < after }
  }

  datatype Integrity = Integrity(valid: bool, gapsFound: nat, checked: nat, gaps: seq<Gap>)

  const REPORTED: nat := 10

  function Gaps(seqs: seq<int>): seq<Gap> {
    if |seqs| < 2 then []
    else if seqs[1] - seqs[0] > 1 then [Gap(seqs[0], seqs[1])] + Gaps(seqs[1..])
    else Gaps(seqs[1..])
  }

  /** The check of the first `limit` numbers in ascending order; only the first gaps are listed. */
  function VerifyGlobalSequence(numbers: seq<int>, limit: nat): Integrity {
    var seqs := Slice(numbers, limit);
    if |seqs| < 2 then Integrity(true, 0, |seqs|, [])
    else
      var gaps := Gaps(seqs);
      Integrity(|gaps| == 0, |gaps|, |seqs|, if |gaps| <= REPORTED then gaps else gaps[..REPORTED])
  }

  /** The database numbers entries from a sequence, so no number occurs twice. */
  predicate Ascending(seqs: seq<int>) { forall i, j :: 0 <= i < j < |seqs| ==> seqs[i] < seqs[j] }

  predicate Contiguous(seqs: seq<int>) { forall i :: 0 <= i < |seqs| ==> seqs[i] == seqs[0] + i }

  lemma {:induction false} NoGapsIsContiguous(seqs: seq<int>)
    requires Ascending(seqs)
    ensures Gaps(seqs) == [] <==> Contiguous(seqs)
  {
    if |seqs| >= 2 {
      var rest := seqs[1..];
      assert Ascending(rest) by { assert forall i :: 0 <= i < |rest| ==> rest[i] == seqs[i + 1]; }
      NoGapsIsContiguous(rest);
      if Gaps(seqs) == [] {
        assert rest[0] == seqs[1] == seqs[0] + 1;
        forall i | 0 <= i < |seqs| ensures seqs[i] == seqs[0] + i {
          if i > 0 { assert seqs[i] == rest[i - 1]; }
        }
      }
      if Contiguous(seqs) {
        forall i | 0 <= i < |rest| ensures rest[i] == rest[0] + i { assert rest[i] == seqs[i + 1]; }
      }
    }
  }

  /** The check passes exactly when the checked numbers are contiguous. */
  lemma ValidIsContiguous(numbers: seq<int>, limit: nat)
    requires Ascending(numbers)
    ensures VerifyGlobalSequence(numbers, limit).valid <==> Contiguous(Slice(numbers, limit))
  {
    NoGapsIsContiguous(Slice(numbers, limit));
  }

  lemma {:induction false} GapsAdd(a: seq<int>, x: int)
    ensures Gaps(a + [x]) == Gaps(a) + if a != [] && x - a[|a| - 1] > 1 then [Gap(a[|a| - 1], x)] else []
  {
    if |a| >= 2 {
      assert (a + [x])[1..] == a[1..] + [x];
      GapsAdd(a[1..], x);
    } else if |a| == 1 {
      assert a + [x] == [a[0], x] && [a[0], x][1..] == [x];
    }
  }

  /** What the check reports: how many numbers it read, how many gaps lie between two neighbours of
      them, and the first ten of these, in order. */
  lemma {:induction false} ReportIsExact(numbers: seq<int>, limit: nat)
    ensures var seqs, v := Slice(numbers, limit), VerifyGlobalSequence(numbers, limit);
            && v.checked == (if |numbers| < limit then |numbers| else limit)
            && v.gapsFound == |Gaps(seqs)| && (v.valid <==> v.gapsFound == 0)
            && |v.gaps| == (if v.gapsFound < 10 then v.gapsFound else 10) && v.gaps == Gaps(seqs)[..|v.gaps|]
  {
  }

  // ---- Accounting for the missing numbers -----------------------------------------------------------------

  function Covering(gaps: seq<Gap>, m: int): nat {
    if gaps == [] then 0 else (if gaps[0].Covers(m) then 1 else 0) + Covering(gaps[1..], m)
  }

  lemma {:induction false} NothingBelow(seqs: seq<int>, m: int)
    requires Ascending(seqs) && seqs != [] && m <= seqs[0]
    ensures Covering(Gaps(seqs), m) == 0
  {
    if |seqs| >= 2 {
      assert Ascending(seqs[1..]) by { assert forall i :: 0 <= i < |seqs[1..]| ==> seqs[1..][i] == seqs[i + 1]; }
      NothingBelow(seqs[1..], m);
      if seqs[1] - seqs[0] > 1 { assert Gaps(seqs)[1..] == Gaps(seqs[1..]); }
    }
  }

  /** Every missing number between the first and the last lies in exactly one gap, and a number
      of the log in none. */
  lemma {:induction false} MissingNumbersAreCovered(seqs: seq<int>, m: int)
    requires Ascending(seqs) && seqs != [] && seqs[0] <= m <= seqs[|seqs| - 1]
    ensures Covering(Gaps(seqs), m) == if m in seqs then 0 else 1
  {
    if |seqs| == 1 {
      assert m == seqs[0];
    } else {
      var rest := seqs[1..];
      assert Ascending(rest) by { assert forall i :: 0 <= i < |rest| ==> rest[i] == seqs[i + 1]; }
      if seqs[1] - seqs[0] > 1 { assert Gaps(seqs)[1..] == Gaps(rest); }
      assert seqs == [seqs[0]] + rest;
      assert forall x :: x in rest ==> x >= rest[0];
      if m < seqs[1] {
        NothingBelow(rest, m);
      } else {
        MissingNumbersAreCovered(rest, m);
      }
    }
  }

  function TotalMissing(gaps: seq<Gap>): int {
    if gaps == [] then 0 else gaps[0].Missing() + TotalMissing(gaps[1..])
  }

  /** Entries and missing numbers add up to the whole range. */
  lemma {:induction false} RangeIsAccountedFor(seqs: seq<int>)
    requires Ascending(seqs) && seqs != []
    ensures TotalMissing(Gaps(seqs)) + |seqs| == seqs[|seqs| - 1] - seqs[0] + 1
  {
    if |seqs| >= 2 {
      assert Ascending(seqs[1..]) by { assert forall i :: 0 <= i < |seqs[1..]| ==> seqs[1..][i] == seqs[i + 1]; }
      RangeIsAccountedFor(seqs[1..]);
      if seqs[1] - seqs[0] > 1 { assert Gaps(seqs)[1..] == Gaps(seqs[1..]); }
    }
  }

  // ---- Deletions ----------------------------------------------------------------------------------------------

  /** Deleting an entry between two others is flagged as soon as the check reads beyond its place. */
  lemma {:induction false} DeletionIsFlagged(seqs: seq<int>, i: nat, limit: nat)
    requires Ascending(seqs) && 0 < i < |seqs| - 1 && i < limit
    ensures !VerifyGlobalSequence(Without(seqs, i), limit).valid
  {
    var left := Slice(Without(seqs, i), limit);
    assert left[i - 1] == seqs[i - 1] && left[i] == seqs[i + 1];
    AscendingWithout(seqs, i);
    assert seqs[i - 1] < seqs[i] < seqs[i + 1];
    assert !(left[i - 1] == left[0] + (i - 1) && left[i] == left[0] + i);
    assert !Contiguous(left);
    ValidIsContiguous(Without(seqs, i), limit);
  }

  /** Of a contiguous log a deletion between two entries goes unnoticed exactly when the check
      stops at or before its place. */
  lemma {:induction false} DeletionUnnoticedBeyondLimit(seqs: seq<int>, i: nat, limit: nat)
    requires Ascending(seqs) && Contiguous(seqs) && 0 < i < |seqs| - 1
    ensures VerifyGlobalSequence(Without(seqs, i), limit).valid <==> limit <= i
  {
    if limit <= i {
      AscendingWithout(seqs, i);
      var left := Slice(Without(seqs, i), limit);
      assert forall k :: 0 <= k < |left| ==> left[k] == seqs[k];
      ValidIsContiguous(Without(seqs, i), limit);
    } else {
      DeletionIsFlagged(seqs, i, limit);
    }
  }

  lemma {:induction false} AscendingWithout(seqs: seq<int>, i: nat)
    requires Ascending(seqs) && i < |seqs|
    ensures Ascending(Without(seqs, i))
  {
    var left := Without(seqs, i);
    forall a, b | 0 <= a < b < |left| ensures left[a] < left[b] {
      assert left[a] == seqs[if a < i then a else a + 1] && left[b] == seqs[if b < i then b else b + 1];
    }
  }

  /** Of a contiguous log it leaves one gap, which is exactly the deleted number. */
  lemma {:induction false} OneDeletionOneGap(seqs: seq<int>, i: nat)
    requires Ascending(seqs) && Contiguous(seqs) && 0 < i < |seqs| - 1
    ensures Gaps(Without(seqs, i)) == [Gap(seqs[i] - 1, seqs[i] + 1)]
  {
    var left := Without(seqs, i);
    if i == 1 {
      SecondDeleted(seqs);
    } else {
      var rest := seqs[1..];
      assert forall k :: 0 <= k < |rest| ==> rest[k] == seqs[k + 1];
      OneDeletionOneGap(rest, i - 1);
      assert left[1..] == Without(rest, i - 1);
      assert left[0] == seqs[0] && left[1] == seqs[1] == seqs[0] + 1;
    }
  }

  lemma {:induction false} SecondDeleted(seqs: seq<int>)
    requires Ascending(seqs) && Contiguous(seqs) && |seqs| > 2
    ensures Gaps(Without(seqs, 1)) == [Gap(seqs[0], seqs[0] + 2)]
  {
    var rest := seqs[2..];
    assert Without(seqs, 1) == [seqs[0]] + rest && ([seqs[0]] + rest)[1..] == rest && rest[0] == seqs[2] == seqs[0] + 2;
    assert forall k :: 0 <= k < |rest| ==> rest[k] == seqs[k + 2];
    NoGapsIsContiguous(rest);
  }

  // ---- Rollbacks ------------------------------------------------------------------------------------------------

  /** The numbers of the committed entries, when the sequence hands out first, first + 1, ... and
      `commits` says which of the transactions that took a number committed. */
  function Committed(commits: seq<bool>, first: int): seq<int> {
    if commits == [] then []
    else if commits[0] then [first] + Committed(commits[1..], first + 1) else Committed(commits[1..], first + 1)
  }

  lemma {:induction false} CommittedNumbers(commits: seq<bool>, first: int)
    ensures var s := Committed(commits, first);
            Ascending(s) && forall m :: m in s <==> first <= m < first + |commits| && commits[m - first]
  {
    if commits != [] {
      CommittedNumbers(commits[1..], first + 1);
      var s := Committed(commits, first);
      forall m ensures m in s <==> first <= m < first + |commits| && commits[m - first] {
        if first < m < first + |commits| { assert commits[m - first] == commits[1..][m - first - 1]; }
      }
      if commits[0] {
        var t := Committed(commits[1..], first + 1);
        assert forall i :: 0 <= i < |t| ==> t[i] in t;
      }
    }
  }

  /** A transaction between two committed ones, of which the later is read, rolled back. */
  ghost predicate InnerRollback(commits: seq<bool>, first: int, read: seq<int>) {
    exists i, j, k :: 0 <= i < j < k < |commits| && commits[i] && !commits[j] && commits[k] && first + k in read
  }

  /** A sequence does not roll back: a log nobody tampered with is flagged exactly when some
      transaction between two committed ones that the check reads rolled back after taking its
      number. */
  lemma {:induction false} RollbacksLookLikeDeletions(commits: seq<bool>, first: int, limit: nat)
    ensures var all := Committed(commits, first);
            VerifyGlobalSequence(all, limit).valid <==> !InnerRollback(commits, first, Slice(all, limit))
  {
    var all := Committed(commits, first);
    CommittedNumbers(commits, first);
    ValidIsContiguous(all, limit);
    if Contiguous(Slice(all, limit)) {
      ContiguousHasNoRollback(commits, first, limit);
    } else {
      BreakIsARollback(commits, first, limit);
    }
  }

  lemma {:induction false} ContiguousHasNoRollback(commits: seq<bool>, first: int, limit: nat)
    requires Contiguous(Slice(Committed(commits, first), limit))
    ensures !InnerRollback(commits, first, Slice(Committed(commits, first), limit))
  {
    var s := Slice(Committed(commits, first), limit);
    forall i, j, k | 0 <= i < j < k < |commits| && commits[i] && commits[k] && first + k in s ensures commits[j] {
      BetweenCommitted(commits, first, limit, i, j, k);
    }
  }

  lemma {:induction false} BetweenCommitted(commits: seq<bool>, first: int, limit: nat, i: nat, j: nat, k: nat)
    requires i < j < k < |commits| && commits[i] && commits[k] && first + k in Slice(Committed(commits, first), limit)
    requires Contiguous(Slice(Committed(commits, first), limit))
    ensures commits[j]
  {
    var all := Committed(commits, first);
    CommittedNumbers(commits, first);
    assert first + i in all;
    EarlierIsRead(all, limit, first + i, first + k);
    Between(Slice(all, limit), first + i, first + j, first + k);
    assert first + j in all;
  }

  lemma {:induction false} BreakIsARollback(commits: seq<bool>, first: int, limit: nat)
    requires !Contiguous(Slice(Committed(commits, first), limit))
    ensures InnerRollback(commits, first, Slice(Committed(commits, first), limit))
  {
    var all := Committed(commits, first);
    var s := Slice(all, limit);
    CommittedNumbers(commits, first);
    var n := FirstBreak(s);
    var i, j, k := s[n - 1] - first, s[n - 1] + 1 - first, s[n] - first;
    assert all[n - 1] == s[n - 1] && all[n] == s[n] && s[n] in s;
    assert all[n - 1] in all && all[n] in all;
    NotBetween(all, n, first + j);
    assert commits[i] && !commits[j] && commits[k];
  }

  lemma {:induction false} EarlierIsRead(all: seq<int>, limit: nat, x: int, y: int)
    requires Ascending(all) && x in all && y in Slice(all, limit) && x < y
    ensures x in Slice(all, limit)
  {
    var s := Slice(all, limit);
    var i :| 0 <= i < |all| && all[i] == x;
    var k :| 0 <= k < |s| && s[k] == y;
    assert all[k] == y;
    assert forall n :: k < n < |all| ==> all[k] < all[n];
    assert i < k;
    assert s[i] == x;
  }

  /** A contiguous log holds every number between two of its numbers. */
  lemma {:induction false} Between(s: seq<int>, x: int, m: int, y: int)
    requires Contiguous(s) && x in s && y in s && x < m < y
    ensures m in s
  {
    var i :| 0 <= i < |s| && s[i] == x;
    var k :| 0 <= k < |s| && s[k] == y;
    assert s[i + (m - x)] == m;
  }

  lemma {:induction false} NotBetween(s: seq<int>, n: nat, m: int)
    requires Ascending(s) && 0 < n < |s| && s[n - 1] < m < s[n]
    ensures m !in s
  {
    forall i | 0 <= i < |s| ensures s[i] <= s[n - 1] || s[n] <= s[i] {
      if i < n - 1 { assert s[i] < s[n - 1]; }
      if i > n { assert s[n] < s[i]; }
    }
  }

  lemma {:induction false} FirstBreak(s: seq<int>) returns (n: nat)
    requires Ascending(s) && !Contiguous(s)
    ensures 0 < n < |s| && s[n] > s[n - 1] + 1
  {
    var b :| 0 <= b < |s| && s[b] != s[0] + b;
    n := 1;
    while s[n] == s[n - 1] + 1
      invariant 0 < n <= b && s[n - 1] == s[0] + n - 1
      decreases b - n
    {
      n := n + 1;
    }
  }
}
